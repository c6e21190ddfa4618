# The binder's flow graph, and what its answers mean for every run

While it resolves names, the binder of this TypeScript compiler threads a current flow node through the
program. It adds nodes for assignments, conditions, scope starts and switch clauses, patches labels for
loops, jumps and joins, and records the node each reference stands at. Five answers rest on searching that
graph backwards: is a binding assigned before this read, is it always in its dead zone, which stores reach
it, was it guarded since its last store, and does a function's end have a path to it.

This project builds the graph as the binder does and proves the answers right for every execution:

* `Syntax` is the program tree, `FlowGraph` the graph and the operations on it, `Visit` what the resolving
  pass does to the binder's state at each node, and `Binder` the class that does it in place, patching
  labels and searching the graph with a stack and a set of nodes seen.
* `Semantics` says what a run does, without reference to the graph: an interpreter whose oracle decides
  what calls return, throw and store through closures. A history of events is the state of a run.
* `Walks` says what a backward path is and what each analysis makes of a node; `Search` is the invariant of
  the search; `Questions` the states of a run the analyses must not miss.
* `Fading`, `Guards`, `Links`, `FollowExpr`, `Landing` and `FollowStmt` prove that every execution, however
  it completes, is a path of the graph; `Bridges` that a path leads through every statement that can be left.
  `Programs` and `ForeignStores` carry this to every function of a whole program, `Scoping` adds what lexical
  scope gives, `Detours` which references lie where the graph has no path, and `Soundness` and `Checks` state the
  results.
* `WaysOut` says how a statement can complete, by a definition over the program alone. `Detours` proves that every run
  completes so, `Liveness` and `Completion` that the graph says exactly that, and `Marks` that a whole program's
  functions are marked accordingly.
* `Positions` is the order nodes are numbered in and how far an assignment reaches in it, `Numberer` the
  class that numbers them; `Extents`, `Narrowing` and `ClosureNarrowing` prove what a closure may take as
  narrowed.
* `WrongAnswers`, `Limits` and `NarrowingLimits` have the programs on which the answers are wrong.

Three further parts of the compiler stand beside it:

* `Declarations` and `Declarer`: the declaring pass, against the early errors of ECMA-262.
* `Answers` and `TypeCache`: the checker's memo of expression types, whose answers may depend on assignments
  still being computed.
* `Inference` and `Unifier`: inferring the type arguments of a generic call.

## Conditions

The results are about the code as it is, so each is limited to the programs it is right about. The conditions
are all on the program text and the graph built for it. For each, `WrongAnswers`, `Limits`, `NarrowingLimits` or
`Guards` has a program that fails it and is answered wrongly, but for the one on names, which the language itself asks:

* A loop has one label (`Limits.LastLabelOnly` is exact: of several labels, only the last is continued to),
  and no closure in its head holds a loop, which would take the label.
* The right side of a compound assignment does not store to the target: it is bound before the target's
  own read, but runs after it.
* A case test does not store to the binding asked about: it is bound on the path that falls through to its
  clause as well.
* A `try` does not store to a binding whose last store, or whose value, is asked about: its `catch` is bound
  from the state before it. Assignment facts need no such condition.
* Inside the scope of the binding asked about, the reference is in no `finally` that diverts, and no break or
  continue leaves one (`Questions.Straight`). The graph enters a `finally` from the end of its try and catch, if
  it takes that to be reached; a throw, return or jump enters it all the same. The block diverts if no path leads
  through the try or the catch without meeting what ends a walk (`Questions.Diverts`):
  * for definite assignment, unless the try or its catch can fall off and has no store to the binding in it;
  * for guards, unless the try or its catch can fall off, does not store to the binding and has no statement whose test guards it;
  * for dead zones, and for stores no try makes, only if the end of the try is reached from a loop out of control's
    reach alone. Where there is no such try, this is no condition (`Soundness.SteadyAnswered`), so a dead-zone report is
    right in every `finally`; where there is, `WrongAnswers.DeadLoopReported` has a program that is reported wrongly.

  A `finally` that only an abrupt completion enters, or one a binding is declared in, is no exception, and the
  end of a function needs no such condition.
* For the end of a function to be marked reachable only if its body can fall off, no loop is out of control's
  reach. That it is marked if a run falls off needs no such condition.
* A guard is not a `typeof` under an operator other than an equality. `Guards.ExclusionExact` is exact for the operators as
  the model has them: `Arithmetic` stands for every one but `<` and the equalities, with any value as result, so it
  counts `"a" + typeof x` as failing too, although that is never falsy.
* Names resolve to bindings in scope, and a label is not empty.
* A closure whose reference is asked about is not in the update of the `for` whose head declares the binding,
  nor in a case test of the switch whose body does (`NarrowingLimits`): there it is numbered after
  assignments that run after it.

The comment on `GuardedSinceStore` counts a typeof test among the guards. The code swaps the operands when the
left one is not `x` itself (binder/flow.go:596-599), so it recognizes `"string" === typeof x` and not
`typeof x === "string"`; the model follows the code.

## Model

| member | source | states |
|---|---|---|
| Checks.FlowErrors | binder/flow.go:293-336 | end to end, for a reference that meets the conditions on the text: in every run of every function of the program, a tracked read that is not reported is evaluated only after a value was stored since its scope was entered, and one reported as used before its declaration only where that has not run, and throws |
| Soundness.DefiniteAssignmentSound | binder/flow.go:259-336 | a read no path reaches without an assignment is evaluated, in every run, only after a store since the binding's scope was last entered: through loops, labeled jumps, switch fallthrough, try and catch |
| Soundness.DeadZoneReportsReal | binder/flow.go:284-328 | a reference reported as used before its declaration is evaluated, in every run that reaches it, with the declaration not yet run since its scope was entered, so that it throws, also in scopes loops enter again |
| Soundness.EndReachableSound | binder/binder.go:1133-1177 | when a function's body is not marked end-reachable, no run of it falls off its end, whatever crosses its finally blocks |
| Soundness.GuardedSinceStoreSound | binder/flow.go:535-578 | a read answered as guarded since its binding's last store never reads undefined, in any run |
| Soundness.ReachingStoresSound | binder/flow.go:367-402 | when no path to a read misses a store, the value it reads was written by one of the reaching stores, and that store was the binding's last |
| Soundness.StateTraced | binder/flow.go:189-239 | whenever a run evaluates a reference in a state an analysis asks about, a backward path of the graph from that reference leads to the node where the state began; the conditions are on the program text |
| Soundness.OnPath | binder/binder.go:1159-1177 | a reference in no finally that diverts, where no jump leaves one, is evaluated, in every run, where the graph has a path for what has happened since its scope was entered |
| Soundness.SteadyAnswered | binder/binder.go:1159-1177 | where every finally the graph enters from the end of its try has a try that can fall off, finally blocks limit neither dead-zone reports nor the stores and assignments no try makes |
| Detours.ExecHolds | binder/binder.go:1133-1178 | running any statement evaluates the reference on no detour, and leaves the run on none unless by a throw or return: a catch and a finally that goes on end a detour |
| Detours.ExecExits | binder/binder.go:791-1178 | every run of a statement completes in one of the ways the definition over the program gives it |
| Bridges.StmtBridges | binder/binder.go:791-1178 | from wherever a statement can be left, the flow after it or a label it hands control to, a walk back that nothing in the statement ends comes to the flow before it |
| Bridges.FinallyEntry | binder/binder.go:1159-1176 | so a finally entered from the end of a try the walk passes through is linked to the flow before the try |
| Soundness.EveryFunctionBound | binder/binder.go:1264-1361 | every function expression of a program is bound in the program's final graph, from a start node of its own, and its end marked if some path reaches it |
| Soundness.LastStoreFound | binder/flow.go:372-402 | a binding in scope that is assigned and that no other function stores to holds the value its last store wrote |
| FollowStmt.StmtFollows | binder/binder.go:791-1178 | running any statement follows the graph built for it: normal completion stands at the flow after it, a break or continue at the label it is handed to, and every reference evaluated on the way at the node recorded for it |
| FollowStmt.WhileRounds | binder/binder.go:936-947 | every round of a while loop starts at the loop's label, and the run leaves it at its exit or an outer target |
| FollowStmt.DoWhileRounds | binder/binder.go:948-963 | the same for do-while, whose test comes after the continue target |
| FollowStmt.ForRoundsFollow | binder/binder.go:914-935 | the same for a for loop, whose continue target precedes the update |
| FollowStmt.ForOfRoundsFollow | binder/binder.go:1075-1092 | the same for a for-of loop, each round in a fresh scope, its iterator told, which may throw, when the loop is left early |
| FollowStmt.SwitchFollows | binder/binder.go:1108-1132 | whichever clause is selected, and however far it falls through, the run follows the graph of the switch |
| FollowStmt.TryFollows | binder/binder.go:1133-1178 | so does a try: a throw lands in its catch, and an abrupt completion crosses its finally along a path through the try where there is one, else by a detour that ends with the block |
| FollowStmt.LabeledFollows | binder/binder.go:974-988 | a labeled statement is left at the label made for it, a loop by its own |
| FollowExpr.ExprFollows | binder/binder.go:1020-1074 | evaluating any expression follows the graph built for it, through short circuits, conditionals, assignments and calls |
| FollowExpr.LogicalAssignFollows | binder/binder.go:1574-1622 | a logical assignment stores on the side of its test that the graph says it does |
| Landing.JumpLands | binder/binder.go:989-1000 | a break or continue stands at the label its innermost matching target names, which the binder knows to be reached |
| Marks.EndReachableExact | binder/binder.go:1351-1357 | in a whole program without loops out of control's reach in its functions, a function expression's end is marked reachable in the final graph if and only if its body can fall off, by the definition over the program |
| Marks.StmtMarks | binder/binder.go:1264-1361 | binding a statement marks exactly the functions in it, at any depth, that can fall off, reachable or not where they are written |
| Completion.StmtCompletes | binder/binder.go:791-1178 | the flow after a statement is live exactly when the statement can fall off, and a label it is bound under has a predecessor afterwards exactly when it had one or a break or continue of the statement goes to it |
| Completion.TryCompletes | binder/binder.go:1133-1178 | a try falls off exactly when its block or catch does and its finally does; jumps leave it as they are, and a finally nothing completes into still hands over its own |
| Completion.DoWhileCompletes | binder/binder.go:948-963 | a do-while falls off exactly when its body is left by a break of its own, or goes on to a test that is not always true |
| Liveness.StmtKeeps | binder/binder.go:791-1178 | binding a statement leaves alone the predecessors of every label neither a jump nor an open try waits at, and, where control does not arrive and there is no loop, those of every label |
| Limits.DeadLoopRevives | binder/binder.go:936-947 | the head of a loop after a return counts as reached, so the end is marked reachable, though every run returns |
| Guards.ExclusionExact | binder/flow.go:582-619 | where the analysis says a branch of a condition rules undefined out of x, no run takes that branch with x undefined if and only if the condition is not a typeof under an operator other than an equality |
| Guards.OneBranch | binder/flow.go:582-619 | no condition excludes undefined on both branches |
| ForeignStores.ForeignExact | binder/flow.go:120-123 | the bindings recorded as stored to from elsewhere are exactly those some function other than their own stores to, at any depth, reachable or not |
| Scoping.ExecProper | binder/binder.go:791-810 | in every run of a program whose references are in scope, a reference is evaluated with its scope open, a declaration finds its binding uninitialized and any other store finds it initialized |
| Scoping.DeadZoneEnds | binder/flow.go:165-170 | while a binding with a dead zone is in scope, it holds a value exactly when its declaration has run since the scope was entered |
| Fading.ExecFades | binder/flow.go:189-239 | a statement that cannot bring about the state an analysis asks about does not, through any completion |
| Links.QuietLink | binder/flow.go:94-117 | from the flow after an expression that stores nothing, a walk reaches whatever it reaches from the flow before it |
| Search.Finished | binder/flow.go:189-239 | when the search ends, early or exhausted, what it found and missed is what the paths meet, and its list of stores is complete if it missed nothing |
| Search.LookAt | binder/flow.go:197-237 | looking at one node keeps the search's invariant: what the walk passes leads to nodes seen or still on the stack |
| Binder.Binder.WalkBack | binder/flow.go:189-239 | the search terminates on every graph, cyclic or not, and answers found and missed exactly as the backward paths do; without a missed path its stores are all the nearest ones |
| Binder.Binder.FlowDiagnostics | binder/flow.go:293-336 | exactly the references the paths prove wrong are reported, a dead-zone report taking the place of an assignment one |
| Binder.Binder.DefinitelyAssigned | binder/flow.go:342-365 | yes exactly for a tracked read in its own function that every path reaches after an assignment expression, and some path does |
| Binder.Binder.ReachingStores | binder/flow.go:372-402 | when ok, exactly the nearest stores on the paths; ok exactly when each is plain, none is missing, and no other function stores to the binding |
| Binder.Binder.GuardedSinceStore | binder/flow.go:540-578 | yes exactly when every path back meets a guard before a store, the scope's entry or the start |
| Binder.Binder.BindProgram | binder/binder.go:791-1178 | binding a program in place builds the graph Visit describes |
| Binder.Binder.BindStmt | binder/binder.go:707-1178 | binding a statement in place leaves the binder in the state Visit says, jump targets, pending label and open tries included |
| Binder.Binder.BindTry | binder/binder.go:1133-1178 | the same for try, catch and finally |
| Binder.Binder.BindAssign | binder/binder.go:1574-1622 | the same for assignments, plain, compound and logical |
| Binder.Binder.AssignHere | binder/flow.go:120-140 | an assignment adds one node, and hands it to every open try |
| Binder.Binder.Attach | binder/flow.go:94-104 | a label gains a reachable predecessor once |
| Binder.Binder.LookUpJump | binder/binder.go:1694-1712 | the innermost target a break or continue can have |
| Visit.VisitStmt | binder/binder.go:707-1178 | binding a statement only adds to the graph, gives back the jump targets and tries it found, and leaves no pending label behind a loop |
| Visit.VisitExpr | binder/binder.go:1020-1074 | the same for expressions |
| FlowGraph.AttachedOnce | binder/flow.go:94-104 | a label gains exactly the given predecessor, if that is reachable and not there yet, so none is there twice, and no other label changes |
| ClosureNarrowing.ClosureNarrowsSound | binder/flow.go:447-492 | where a reference in a function expression is taken to see a binding narrowed as at the function expression's creation, no run assigns to the binding after that creation, other functions' code included, until the binding is made anew |
| Narrowing.ExecGoes | binder/binder.go:680-704 | running any statement assigns nothing to a binding a closure has captured, round after round of every loop |
| Extents.SetBefore | binder/flow.go:428-446 | every assignment to a binding not assigned from a position on is by the binding's own function and before that position |
| Extents.FrameBefore | binder/flow.go:436-443 | a statement that holds such an assignment, but not the declaration, ends before that position: the outermost statement after the declaration pays for it when it closes |
| Narrowing.PartFrame | binder/binder.go:263-286 | so no such statement holds both an assignment and the reference |
| ClosureNarrowing.BinderAccepts | binder/binder.go:741-760 | the position recorded for a reference is where the visiting order has it |
| Numberer.Numberer.NumberProgram | binder/binder.go:680-704 | numbering a program in place takes the steps of its visiting order, one after another |
| Numberer.Numberer.MarkAssignment | binder/flow.go:428-446 | an assignment is left to the first open statement that begins after the declaration, or counts up to here, or, in another function, for ever |
| Numberer.Numberer.CloseFrame | binder/binder.go:694-703 | a statement that ends extends the assignments left to it up to its end |
| Numberer.Numberer.ClosureNarrows | binder/flow.go:447-492 | the answer, by the binding's declaration and its last assignment's reach |
| NarrowingLimits.UpdateAccepted | binder/binder.go:914-935 | a reference in a closure in the update of the for loop that declares its binding is accepted, though the body assigns to it |
| NarrowingLimits.UpdateAssigned | binder/binder.go:914-935 | and the next round's body assigns to the binding after the closure is created |
| NarrowingLimits.TestAccepted | binder/binder.go:1108-1132 | a reference in a closure in a case test is accepted, though the default clause before it declares its binding and assigns to it |
| NarrowingLimits.TestAssigned | binder/binder.go:1108-1132 | and the clause runs after the test has created the closure |
| Declarations.ConflictsExact | binder/binder.go:602-632 | for blocks, loop heads, catch clauses, parameters, let, const and var, the two passes record no conflict if and only if the program has no such early error, whatever the order of its declarations |
| Declarer.Conflicts | binder/binder.go:1205-1260 | the conflicts a new binder collects in place are none exactly then |
| Declarations.WalkNotes | binder/symbol.go:101-145 | conflicts are noted while declaring exactly when some table ends up with a lexical declaration that is not a name's only one |
| Declarations.WalkHoists | binder/binder.go:1205-1220 | a var hoists through exactly the scopes between it and its function's |
| Declarer.Declarer.CheckHoists | binder/binder.go:1241-1260 | a conflict is added for the vars that hoist through a lexical declaration of their name, and no others |
| Answers.AnswerRests | checker/checker.go:357-428 | whatever a query asks next, depending on the answers so far, its answer depends only on open assignments, and rests on exactly those it names: there is a derivation of it whose undischarged assumptions they are |
| Answers.SessionSound | checker/checker.go:229-234 | after any queries and any flow walks outside them, every permanent answer rests on no open assignment, every provisional one on exactly those kept with it |
| Answers.OutermostKept | checker/checker.go:386-428 | a query asked with nothing open is answered for good, given up or not |
| TypeCache.Checker.TypeOf | checker/checker.go:357-428 | answered from the log of cuts, a query gives what Answers says, keeps what it keeps, and leaves the log grown by exactly the open assignments it depends on, each once, unless given up |
| TypeCache.Checker.CheckExpr | checker/checker.go:391-416 | whatever is asked in between, the log from the mark on holds, of the open assignments, exactly those depended on, and is never cut below the mark |
| TypeCache.Checker.Assigned | checker/narrow.go:579-597 | an assigned value in progress is a cut; otherwise it is opened, answered and closed again, the log cleared when nothing is open |
| TypeCache.Checker.OpenFrom | checker/checker.go:405-416 | the open assignments logged from a mark on, each once |
| Inference.InferenceInverts | checker/generics.go:525-757 | matching parameters' types against their instances and instantiating with what is inferred gives the arguments' types back if and only if every type parameter in them keeps its literals or stands for a type without any |
| Inference.MatchInstance | checker/generics.go:525-757 | matching a pattern against its instance gives each type parameter its own type as a candidate, once for each time it occurs, and nothing else |
| Inference.InstanceDetermines | checker/generics.go:81-212 | two substitutions give a type the same instance if and only if they agree on the parameters in it |
| Unifier.Unifier.Unify | checker/generics.go:525-757 | matching in place collects exactly those candidates; the guard against a match inside itself never cuts one |
| Unifier.Unifier.Infer | checker/generics.go:323-451 | the arguments are matched in order, and each parameter gets what its candidates give it |
| Limits.LastLabelOnly | binder/binder.go:974-988 | a function that only continues a labeled loop always falls off its end, which is marked reachable exactly when the label is the loop's last |
| Limits.StolenLabelLosesBreak | binder/binder.go:1678-1692 | a closure with a loop in a labeled loop's head takes the label: the end every run reaches is not marked reachable |
| WrongAnswers.CompoundReadWrong | binder/binder.go:1598-1610 | a program `x op= (x = 0)` that meets every other condition: no path reaches the read without an assignment, and a run evaluates it with nothing stored |
| WrongAnswers.FallingTestWrong | binder/binder.go:1120-1122 | the same for a switch that falls into a clause whose test assigns |
| WrongAnswers.FinallyReadWrong | binder/binder.go:1164-1176 | the same for a read in a finally, entered by a throw before the try assigns |
| WrongAnswers.FinallyBreakWrong | binder/binder.go:1164-1176 | the same for a read after a break out of that finally |
| WrongAnswers.FinallyGuardWrong | binder/binder.go:1164-1176 | a program in which every path guards a read in a finally, by a test in its try, and a run evaluates it with undefined, the test having thrown on its other side |
| WrongAnswers.DeadLoopReported | binder/binder.go:1164-1176 | a program whose try ends in a loop out of reach and whose finally breaks: a reference is reported as used before its declaration, and a run evaluates it after |
| WrongAnswers.CatchReadWrong | binder/binder.go:1143-1146 | a program in which every path guards a read in a catch since the last store, and a run evaluates it with undefined, set by the try |

## Left out

- Names: references carry their symbols; scope tables, hoisting and the declaring pass are not modelled, so a function's own scope and its bindings are there from its start.
- DefiniteAssignmentSound: leaves out references in a finally whose try stores to the binding, and jumps out of one, because the graph enters the block from the end of the try only.
- DeadZoneReportsReal: asks that no try with a catch or finally declares the binding, and leaves out a finally whose try ends in a loop out of reach.
- GuardedSinceStoreSound: asks that no try stores to the binding, because a catch is bound from the state before its try, and leaves out references in a finally whose try guards the binding, because the graph takes the guard to hold there.
- ReachingStoresSound: asks that no try stores to the binding, and leaves out a finally whose try ends in a loop out of reach.
- EveryFunctionBound: for function expressions with a statement body; expression bodies, parameter defaults, function declarations, methods, generators and functions called where they are written are not modelled.
- EndReachableExact: takes every condition but `true` for one that may go either way, as the source does.
- Destructuring, optional chains, for-in, classes, enums, namespaces, decorators, `this` and type queries: they only widen the case split.
- Expression kinds without effect on the flow are one constructor, `Opaque`, over their operands.
- Calls: what a call does to the caller's bindings is the oracle's, and limited to the bindings other functions store to.
- Values: numbers are integers, since only their truthiness and equality matter here.
- Runs that do not end: every finite prefix of one is a run with less fuel.
- ClosureNarrowsSound: the numbering counts each node of the model's tree once, which keeps the order of the source's; function declarations, class methods, inline functions and destructured constants are not modelled, so every nested function is one that continues its creator's flow, and a `const` is accepted without being looked at.
- ClosureNarrows: does not look at the kinds of the functions around a reference, because each of the model's is an expression, which passes.
- ConflictsExact: two parameters of one name, duplicate function bodies, functions in blocks, imports, enums, namespaces and types are not modelled.
- AnswerRests: flow caches, the assertions and receivers TypeOf answers first, and what typing an expression computes are not modelled: an expression is what it asks next, given the answers so far, and a function of the answers. Typing a symbol (`typeOfSymbol`, checker/symbols.go:14-84) opens a fresh key around several queries and keeps its result for good, whatever is open; it is not modelled. A permanent answer may differ from one computed afresh under other open assignments, so no more is claimed.
- InferenceInverts: parameters' types hold no union but whole ones, no generic, overloaded or rest signatures and no conditional types; explicit type arguments, receivers, callbacks' second pass and defaults are not modelled. Different candidates are joined by a function that is a parameter here.
- MatchInstance: for the same types, so the cases of a union inside a type, of an interface matched by its members and of a deferred type are left out.
- InstanceDetermines: for the same types; a union the source would normalise when it instantiates is left out.
- Unify: types are finite trees, so the guard against a match inside itself is there and never cuts one; the recursive types it is for are not modelled.
- Infer: a parameter whose candidates differ gets what a function given as a parameter makes of them; poisoned and defaulted parameters are left out.
- Erasure of type parameters, name mangling, namespace objects, number-to-string layout, `keyof` and signatures of unions; the emitter and the parser.
