# Verified models of the Absolute compiler and its WASM host

Absolute is a language with owned, borrowed, weak and raw pointers and with tasks. Its analyzer decides
at compile time whether every owner is released, every task awaited and every local assigned, and its WASM
host runs tasks and sockets over shared memory. This project models the hard parts of both in Dafny and
proves what they are for.

**The flow-sensitive ownership checker** (`FlowSyntax`, `FlowState`, `FlowChecker`, `Analyzer`). The checker
walks a function body once and keeps two tables, the delete obligation of each raw owner and the value state
of each local; it copies, restores and merges them at branches, loops and try statements. `Analyzer` is that
object with its fields updated in place; each method is proved to compute the function of the same step in
`FlowState` and `FlowChecker`. `Runs` is an independent meaning of programs: a store with a heap, faults
recorded per local, and an oracle that decides every branch, loop test, thrown call and caught exception.
An oracle that gives out cuts the run, so "for every oracle" is "for every prefix of every run, for any
number of loop turns".

The proof goes through small files. `FlowFrame`: what a visit leaves alone, and that the two scope stacks stay equally
high. `FlowTracking`: a local is in the tables exactly while it is in scope. `FlowUntouched`: text that only looks at
an owner leaves its entries alone on every way out. `FlowCoherence`: which pairs of
states the two tables can hold. `FlowJoin`: merging is a join. `FlowDoom`: once the state of an owner or task
depends on the path, every way on is reported. `FlowCells` and `FlowSoundness`: while nothing is reported,
the tables are right about the store on every run. `FlowTermination`: where the checker says control ends,
no run goes on. `RunLedger`: allocations are not lost without a fault. `FlowTheorems` puts these together, and
`FlowFragment` says for which programs: `CoveredIn` is a test on the program text, made for one local at a
time. `FlowLimits` has an accepted and misbehaving program for each of its conditions that a run can tell.

`FlowStructure` says of the text alone, for every body, when control stops and which reports there are that name no
local. `FlowReach` and `FlowPrecision` go the other way about: the harm that a report charges the text with, some run
does, for text that meets `FlowPrecision.Runnable`. `FlowAlarms` has a program for each of its conditions about which
the checker complains without reason. Where both tests are met the checker decides safety
(`FlowPrecision.AcceptedExactlyWhenSafe`).

Two things differ from what a reader may expect. The language's own description (README.md:799-806) says a
raw owner must be deleted on every path including `continue`; the code records only the value table there
(Absolute-Analyzer/src/analyzer_statements.cpp:900-905, against 925-926 for `break`), and the model follows
the code. `FlowLimits.ContinueForgets` is the program that slips through. And a loop body is walked once,
with no fixpoint: that this is sound for `while` is proved (`FlowSoundness.TurnBack`). It is not for a `do-while`
or a `try` that changes an owner, and not for owners set to null before or inside a loop that changes them: there
are examples, and a `do-while` or `try` that only looks at the owner is proved sound.

**The ownership forest** (`Forest`): one owner per managed name, re-pointed when an owner moves, against a
world of objects contained in variables and fields.

**The WASM host** (`TaskPool`, `TcpBridge`, `TcpInbox`): the 32-slot pool and the one-word request handshake
as interleaved steps of one Atomics operation each, and the socket record with its waiting readers. A worker of the
pool that finds no job loads the wake word only then, so a job published in between is slept through until the next
one comes (`TaskPool.JobIsSleptThrough`, `TaskPool.SleepNeedsALateLoad`). In the
handshake the serving side loads the status word twice, once to test it and once as the value to sleep on;
`TcpBridge.StallIsReachable` is an interleaving in which it sleeps through a request, which only a time-out ends,
and `TcpBridge.StallsExactlyWhen` says exactly from which states that happens.

**Type algebra** (`TypeGraph`, `ResourceWalks`, `GenericNames`, `ArrayLiterals`): least common pointer types,
the three walks that decide what owns, copies and releases, generic names as strings, and the shape and
layout of array literals.

## Model

| member | source | states |
|---|---|---|
| FlowAnalyzer.Analyzer.CheckKeepScopesFrom | Absolute-Analyzer/src/analyzer.cpp:599-617 | reports, in order, every registered raw owner of the scopes from `firstScope` on that is not deleted, and changes nothing else |
| FlowAnalyzer.Analyzer.CheckTaskScopesFrom | Absolute-Analyzer/src/analyzer.cpp:668-690 | the same for tasks that are or may be pending |
| FlowAnalyzer.Analyzer.PopKeepScope | Absolute-Analyzer/src/analyzer.cpp:619-629 | leaving a scope checks it unless control has ended, and forgets exactly its owners |
| FlowAnalyzer.Analyzer.PopValueFlowScope | Absolute-Analyzer/src/analyzer.cpp:649-666 | the same for the value table |
| FlowAnalyzer.Analyzer.RegisterFlowSymbol | Absolute-Analyzer/src/analyzer.cpp:692-697 | enters a local in the value table and in the innermost scope |
| FlowAnalyzer.Analyzer.RegisterKeep | Absolute-Analyzer/src/analyzer_statements.cpp:317-321 | enters a fresh raw owner as live, in the innermost scope |
| FlowAnalyzer.Analyzer.MergeKeepPaths | Absolute-Analyzer/src/analyzer.cpp:631-642 | the loops over owners and paths compute the join `JoinKeep` of every owner of the base table |
| FlowAnalyzer.Analyzer.MergeFlowStates | Absolute-Analyzer/src/analyzer.cpp:833-880 | comparing two value states field by field computes `MergeFlow` |
| FlowAnalyzer.Analyzer.MergeValueFlowPaths | Absolute-Analyzer/src/analyzer.cpp:824-885 | the loops over locals and paths compute the join `JoinFlow` of every local of the base table |
| FlowAnalyzer.Analyzer.ReportReads | Absolute-Analyzer/src/analyzer_access.cpp:206-215 | a read is reported when the local is unassigned or assigned on some paths only |
| FlowAnalyzer.Analyzer.Dereference | Absolute-Analyzer/src/analyzer_values.cpp:1223-1241 | `*p` is reported for null, deleted, expired and uncertain pointers |
| FlowAnalyzer.Analyzer.DeleteValue | Absolute-Analyzer/src/analyzer_values.cpp:942-1030 | `delete p` with its six reports and the new entries of both tables |
| FlowAnalyzer.Analyzer.AssignValue | Absolute-Analyzer/src/analyzer_values.cpp:248-263 | assignment reports a live raw owner overwritten and sets both entries |
| FlowAnalyzer.Analyzer.AwaitTask | Absolute-Analyzer/src/analyzer_values.cpp:1155-1183 | `await t` reports a second or uncertain await and marks the task awaited |
| FlowAnalyzer.Analyzer.VisitLoopExit | Absolute-Analyzer/src/analyzer_statements.cpp:891-929 | break and continue check the scopes opened inside the loop; break records both tables, continue the value table only |
| FlowAnalyzer.Analyzer.VisitFunctionExit | Absolute-Analyzer/src/analyzer_statements.cpp:269-272 | return and throw check every scope and end the flow |
| FlowAnalyzer.Analyzer.VisitCompound | Absolute-Analyzer/src/analyzer_statements.cpp:63-83 | a block opens and leaves both scopes and stops at the first statement that ends the flow |
| FlowAnalyzer.Analyzer.VisitIf | Absolute-Analyzer/src/analyzer_statements.cpp:324-366 | every branch starts from the same tables; the paths that continue are merged |
| FlowAnalyzer.Analyzer.VisitSwitch | Absolute-Analyzer/src/analyzer_statements.cpp:415-492 | case labels are checked and collected, and a switch that may match nothing keeps its entry state as a path |
| FlowAnalyzer.Analyzer.VisitLoop | Absolute-Analyzer/src/analyzer_statements.cpp:727-789 | the body is walked once; the exits are the entry state (while only), the end of the body and what was recorded inside |
| FlowAnalyzer.Analyzer.VisitTry | Absolute-Analyzer/src/analyzer_statements.cpp:536-633 | catch clauses restart from the tables before the try; finally runs on the merged state |
| FlowAnalyzer.Analyzer.Visit | Absolute-Analyzer/src/analyzer_statements.cpp:63-929 | one statement, in place, is the function `Check` of the state before |
| FlowAnalyzer.Analyzer.ResolveFunction | Absolute-Analyzer/src/analyzer.cpp:2228-2236 | a body is accepted exactly when no diagnostic is left, the missing-return one included |
| FlowJoin.JoinKeepIsLeast | Absolute-Analyzer/src/analyzer.cpp:631-642 | the merged delete obligation is the least one above all paths |
| FlowJoin.JoinFlowIsLeast | Absolute-Analyzer/src/analyzer.cpp:824-881 | the merged value state is the least one above all paths, for locals that are pointers on all paths or on none |
| FlowJoin.JoinIgnoresOrder | Absolute-Analyzer/src/analyzer.cpp:824-881 | reordering or repeating paths changes no merged delete, initialization or task state, and no validity unless the paths mix null and other non-dangerous pointers with a state that is no pointer's |
| FlowJoin.OrderMattersExactly | Absolute-Analyzer/src/analyzer.cpp:843-868 | for any set of path states, the merged validity depends on the order of the paths if and only if they are mixed in that way |
| FlowJoin.GroupingMattersExactly | Absolute-Analyzer/src/analyzer.cpp:843-868 | for all validities, exactly which triples merge differently when grouped differently |
| FlowUntouched.CheckUntouched | Absolute-Analyzer/src/analyzer_statements.cpp:63-929 | text that does not change an owner or a task leaves both of its entries as they were, at its end and in every state recorded for a loop |
| FlowFrame.CheckGrows | Absolute-Analyzer/src/analyzer_statements.cpp:63-929 | every visit leaves outer scopes and loops alone, only adds diagnostics, and keeps the two scope stacks equally high |
| FlowTracking.CheckTracks | Absolute-Analyzer/src/analyzer_statements.cpp:63-929 | a local is in each table exactly while it is in scope (as an owner, for the delete table), in exactly one scope |
| FlowCoherence.CheckSteps | Absolute-Analyzer/src/analyzer_statements.cpp:324-929 | the two tables stay in step at every point and in every recorded exit, for a raw owner where null is reckoned with and no do-while changes it; a deleted owner that is not assigned stays deleted |
| FlowDoom.JoinDoomed | Absolute-Analyzer/src/analyzer.cpp:631-642 | one path that may be invalid and one that owes a delete make the merged owner both |
| FlowDoom.CheckDoom | Absolute-Analyzer/src/analyzer_statements.cpp:324-929 | a statement that reports nothing leaves a doomed owner doomed on every way out, and never lets it leave its scope |
| FlowTheorems.DoomIsReported | Absolute-Analyzer/src/analyzer.cpp:599-642 | an owner that may be invalid and still owes its delete, or a task that may be pending, leads to a later diagnostic whatever its block still does, as long as no switch in it is without cases over an enum without members |
| FlowTheorems.BlindSwitchHides | Absolute-Analyzer/src/analyzer_statements.cpp:415-492 | such a switch ends the walk, and the block is left without a report whatever it owes |
| FlowTheorems.ForEachVisit | Absolute-Analyzer/src/analyzer_statements.cpp:791-889 | a for-each opens both scopes, enters its variable as assigned, walks the body once with the entry as an exit, and leaves the scopes |
| FlowTheorems.ForEachCovered | Absolute-Analyzer/src/analyzer_statements.cpp:791-889 | a for-each is covered exactly where the loop in it is |
| FlowCells.ExecOwn | Absolute-Analyzer/src/analyzer_values.cpp:942-1241 | an operation that is not reported does no harm to the store and keeps the tables right |
| FlowCells.NullIsTracked | Absolute-Analyzer/src/analyzer_values.cpp:1014-1030 | reported or not, an operation on a pointer leaves the value table saying null exactly when the pointer is null, and a use of null is reported exactly when it is one |
| FlowSoundness.TurnBack | Absolute-Analyzer/src/analyzer_statements.cpp:727-756 | one pass is enough: what holds after a turn of the loop holds at its test again |
| FlowSoundness.SoundLoop | Absolute-Analyzer/src/analyzer_statements.cpp:727-789 | from the loop test on, for any number of turns, the tables after the loop are right |
| FlowSoundness.SoundStmt | Absolute-Analyzer/src/analyzer_statements.cpp:63-929 | a quiet visit of any statement is right about every run of it, whatever way the run leaves |
| FlowSoundness.SoundTry | Absolute-Analyzer/src/analyzer_statements.cpp:536-633 | the same for try, catch and finally: for plain locals, and for owners and tasks the try only looks at |
| FlowTheorems.AcceptedIsSafe | Absolute-Analyzer/src/analyzer_values.cpp:973-1030 | the checker's promise: in an accepted body no run frees a covered local twice, dereferences it null or freed, overwrites or drops what it owns, awaits it twice or reads it unassigned |
| FlowTheorems.ThrowsOnlyDrop | Absolute-Analyzer/src/analyzer_statements.cpp:496-534 | calls that throw while a local owns something can only drop it: no run frees it twice, dereferences it null or freed, overwrites it or awaits it twice, and without try statements the run ends with that exception |
| FlowTheorems.AcceptedReleasesAll | Absolute-Analyzer/src/analyzer.cpp:599-690 | in an accepted body whose locals are covered, every run to the end has freed all allocations and awaited all tasks |
| RunLedger.LedgerStmt | Absolute-Analyzer/src/analyzer_statements.cpp:316-321 | on any run of any program, an allocation or task nobody holds any more has left a fault |
| FlowTermination.TerminatedStmt | Absolute-Analyzer/src/analyzer_statements.cpp:324-633 | where `flowTerminated` is set, no run completes the statement normally |
| FlowTermination.MatchSelectsOne | Absolute-Analyzer/src/analyzer_statements.cpp:415-492 | an accepted exhaustive match without default has exactly one arm for every value, and a run takes it |
| FlowTermination.AcceptedReturns | Absolute-Analyzer/src/analyzer.cpp:2229-2233 | no accepted function with a result runs off its end |
| FlowStructure.StmtStops | Absolute-Analyzer/src/analyzer_statements.cpp:324-633 | for every statement, `flowTerminated` is set exactly when no way through the text comes to its end: every branch stops and every value of the selector has one |
| FlowStructure.StmtReports | Absolute-Analyzer/src/analyzer_statements.cpp:415-929 | for every statement, a report that names no local is made exactly when the text has the mistake it stands for: a label that does not fit or stands twice, a value without a case in an exhaustive match, a break or continue outside a loop, a control transfer out of finally |
| FlowStructure.MatchReports | Absolute-Analyzer/src/analyzer_statements.cpp:464-471 | an exhaustive match without default whose labels fit and differ and whose arms are in order is in order if and only if every value of its selector is a label |
| FlowStructure.FunctionReports | Absolute-Analyzer/src/analyzer.cpp:2228-2236 | the same for whole functions; a return is reported missing exactly when a result is due and the text does not stop |
| FlowLimits.ContinueForgets | Absolute-Analyzer/src/analyzer_statements.cpp:900-905 | an accepted loop that allocates and continues leaks |
| FlowLimits.NullComesBack | Absolute-Analyzer/src/analyzer.cpp:860-868 | an accepted loop that deletes its owner and sets it to null dereferences null in its second turn |
| FlowLimits.NullHidesOverwrite | Absolute-Analyzer/src/analyzer.cpp:860-868 | an accepted loop that starts from null allocates again over a live owner |
| FlowLimits.DoWhileAwaitsTwice | Absolute-Analyzer/src/analyzer_statements.cpp:775-781 | an accepted do-while awaits its task once per turn |
| FlowLimits.DoWhileDeletesTwice | Absolute-Analyzer/src/analyzer_statements.cpp:775-781 | an accepted do-while deletes its owner once per turn |
| FlowLimits.ThrowingCallLeaks | Absolute-Analyzer/src/analyzer_statements.cpp:496-534 | an accepted call that throws leaves an owner behind; only explicit throws check the scopes |
| FlowLimits.CatchDeletesTwice | Absolute-Analyzer/src/analyzer_statements.cpp:556-600 | an accepted catch clause restarts from before a try body that deleted the owner, and it is deleted again |
| FlowLimits.FinallyReadsUnassigned | Absolute-Analyzer/src/analyzer_statements.cpp:624-632 | an accepted finally block reads a local its try body did not get to assign |
| FlowPrecision.StmtExact | Absolute-Analyzer/src/analyzer_statements.cpp:63-929 | every standing of a local the tables claim after a visit is brought about by some run, and every report that names it is borne out by one |
| FlowPrecision.MergeShown | Absolute-Analyzer/src/analyzer.cpp:631-885 | a merge claims nothing that none of its paths claimed |
| FlowPrecision.ReadCharges | Absolute-Analyzer/src/analyzer_access.cpp:206-215 | in every state of a local, reading it charges the text with an unassigned read exactly when it may be unassigned |
| FlowPrecision.DerefCharges | Absolute-Analyzer/src/analyzer_values.cpp:1223-1241 | in every state of a pointer, which of the three harms using it charges the text with |
| FlowPrecision.DeleteCharges | Absolute-Analyzer/src/analyzer_values.cpp:942-1030 | in every state of both tables, when deleting charges the text with a double free |
| FlowPrecision.AwaitCharges | Absolute-Analyzer/src/analyzer_values.cpp:1155-1183 | in every state of a task, when awaiting it charges the text with a second await |
| FlowPrecision.StopsExactly | Absolute-Analyzer/src/analyzer.cpp:2229-2233 | text does not stop if and only if some run of it comes to its end |
| FlowPrecision.ReportIsHarm | Absolute-Analyzer/src/analyzer_values.cpp:942-1241 | a report about a local charges the text with one kind of harm, and some run does just that to the local |
| FlowPrecision.AcceptedExactlyWhenSafe | Absolute-Analyzer/src/analyzer.cpp:2228-2236 | a function in both fragments is accepted if and only if its text has no structural mistake, no run of it does any local any harm, and, when a result is due, no run comes to its end without one |
| FlowAlarms.DeletingNullIsReported | Absolute-Analyzer/src/analyzer_values.cpp:1014-1018 | deleting an owner set to null is reported as a second delete, and no run does harm |
| FlowAlarms.IdleDefaultIsReported | Absolute-Analyzer/src/analyzer_statements.cpp:450-492 | a default beside cases for both truth values is merged although no run takes it |
| FlowAlarms.CodeAfterReturnIsReported | Absolute-Analyzer/src/analyzer_statements.cpp:775-788 | after a do-while that always returns the walk goes on from the tables before it |
| FlowAlarms.CatchReadIsReported | Absolute-Analyzer/src/analyzer_statements.cpp:556-600 | a catch clause is walked from the tables before the try although nothing is thrown |
| Forest.OwnerTable.TransferManagedAliases | Absolute-Analyzer/src/analyzer.cpp:699-713 | every name with the previous owner, the moved one included, gets the next owner; others keep theirs |
| Forest.OwnerTable.Visit | Absolute-Analyzer/src/analyzer_values.cpp:235-259 | new, borrow, move and attach accept exactly what the table function accepts, and leave its table |
| Forest.CycleTestIsExact | Absolute-Analyzer/src/analyzer_values.cpp:105-130 | an attachment is refused for a cycle if and only if its target is inside the tree being moved |
| Forest.NewKeeps | Absolute-Analyzer/src/analyzer_values.cpp:254-259 | a new object in a variable keeps every live name's owner right |
| Forest.MoveKeeps | Absolute-Analyzer/src/analyzer_access.cpp:690-707 | moving an owner to another variable keeps every live name's owner right |
| Forest.AttachKeeps | Absolute-Analyzer/src/analyzer_values.cpp:235-247 | moving an owner into a field keeps every live name's owner right and containment acyclic |
| Forest.OwnershipStaysAForest | Absolute-Analyzer/src/analyzer.cpp:699-713 | along any accepted straight-line code every live name's owner is the variable that owns the root of its tree, a name can be moved out of exactly when it holds a root, and an attachment of one is refused exactly when it would close a cycle |
| Forest.RefusedExactly | Absolute-Analyzer/src/analyzer_values.cpp:105-247 | after any accepted operations, exactly when the next one is refused, by the roles the operations gave its names: owner, borrower, assigned and not moved out |
| TaskPool.StepKeeps | tools/absolute-wasm-host.js:152-220 | every step of the main thread and of every worker keeps the pool invariant |
| TaskPool.RunningHasOneWorker | tools/absolute-wasm-task-worker.js:94-102 | in every reachable state a slot is RUNNING exactly when one worker, and only one, has it |
| TaskPool.ExecutedAtMostOnce | tools/absolute-wasm-task-worker.js:94-156 | no job runs twice, and a DONE job has run once, on its own entry and data |
| TaskPool.PublishedIsUntouched | tools/absolute-wasm-host.js:172-189 | while a slot is READY, and while its worker loads its words up to the execution, slot and worker hold what was published |
| TaskPool.FullMeansFull | tools/absolute-wasm-host.js:177-192 | enqueue returns -1 only when no slot is free at that moment |
| TaskPool.RunIsRecorded | tools/absolute-wasm-task-worker.js:131-139 | the event that runs the entry of a job runs it on the data the job was published with, and unless it throws its result is the first bytes it left in memory, eight at most and no more than the context |
| TaskPool.AwaitCopiesOwnResult | tools/absolute-wasm-host.js:194-220 | what a completed await copies starts with those bytes, from the one event that ran the job of the last enqueue that returned this id, if it did not throw; the result word says whether it did |
| TaskPool.JobCompletes | tools/absolute-wasm-host.js:171-220 | when the main thread is idle, any request can be enqueued in the first free slot, run by a worker that comes to it and awaited, and what comes back is what the run left |
| TaskPool.AwaitGivesUp | tools/absolute-wasm-host.js:199-207 | an await ends without a result only on a free slot, or when its time is out and the job is not done at that moment |
| TaskPool.WakeCountsJobs | tools/absolute-wasm-host.js:186-188 | the wake word counts the published jobs, up to its 32 bits, the one about to be announced excepted |
| TaskPool.SleepNeedsALateLoad | tools/absolute-wasm-task-worker.js:160-168 | a worker sleeps while a job is READY and announced only if a worker loaded the wake word after that job, or another, was announced |
| TaskPool.JobIsSleptThrough | tools/absolute-wasm-task-worker.js:160-168 | and that happens: an interleaving ends with the only worker asleep and a job published |
| TaskPool.NoLostWakeUp | tools/absolute-wasm-host.js:199-207 | if the main thread sleeps on a DONE slot, a worker is between its DONE store and its notify |
| TcpBridge.CallsArePaired | tools/absolute-wasm-host.js:341-367 | the k-th call returns the result the worker was given for the k-th request it served, with its bytes cut to the buffer or else the call's own, and the worker saw that very request |
| TcpBridge.CallCompletes | tools/absolute-wasm-host.js:341-367 | whenever main is ready and the worker looks for a request, any call can go through and return any answer |
| TcpBridge.BufferHasOneOwner | tools/absolute-wasm-tcp-worker.js:237-289 | the two sides never own the shared buffer at the same time |
| TcpBridge.CallerIsWoken | tools/absolute-wasm-host.js:353-360 | a caller asleep while its reply is there is about to be notified |
| TcpBridge.StallIsReachable | tools/absolute-wasm-tcp-worker.js:274-279 | an interleaving ends with both sides asleep on a request, because the worker loads the status twice |
| TcpBridge.StallStays | tools/absolute-wasm-tcp-worker.js:274-279 | from there no step of either side changes anything |
| TcpBridge.StallsExactlyWhen | tools/absolute-wasm-tcp-worker.js:274-279 | from a reachable state the bridge can stall on the outstanding request if and only if the worker's second load saw it and the worker is not asleep before its notify |
| TcpBridge.StallNeedsTheSecondLoad | tools/absolute-wasm-tcp-worker.js:274-279 | a run in which no second load sees `request` never stalls |
| TcpBridge.SecondLoadCanStall | tools/absolute-wasm-tcp-worker.js:274-279 | after every second load that sees `request` some continuation stalls |
| TcpBridge.MissedStalls | tools/absolute-wasm-host.js:352-360 | once the worker sleeps on a request already notified, whatever else happens the bridge is stalled exactly when main has taken the steps left to its own sleep |
| TcpInbox.BytesAreConserved | tools/absolute-wasm-tcp-worker.js:52-104 | delivered bytes followed by the inbox are the bytes that arrived, each reader is answered once or waiting, and waits only while there is nothing to read and more may come |
| TcpInbox.ReadersAreServed | tools/absolute-wasm-tcp-worker.js:91-232 | what every event gives to whom: waiters in order, each the front of the inbox, all of it up to a limit that is not negative |
| TcpInbox.Connection.FlushWaiters | tools/absolute-wasm-tcp-worker.js:92-105 | the loop serves waiters first come first served while it can |
| TcpInbox.Connection.OnReceive | tools/absolute-wasm-tcp-worker.js:183-197 | a read takes what is there, gets nothing from a closed connection, or waits |
| TcpInbox.Connection.OnTimeOut | tools/absolute-wasm-tcp-worker.js:198-210 | a waiter that times out leaves the queue and is answered |
| TcpInbox.Connection.OnClose | tools/absolute-wasm-tcp-worker.js:217-232 | closing answers every waiter with nothing and forgets the socket |
| TypeGraph.CollectAncestors | Absolute-Analyzer/src/analyzer.cpp:1543-1567 | the list grows by exactly the types above, each once |
| TypeGraph.DerivedIsUp | Absolute-Analyzer/src/analyzer.cpp:1608-1632 | IsDerivedFrom accepts exactly the types above |
| TypeGraph.UpIsClimbed | Absolute-Analyzer/src/analyzer.cpp:1543-1567 | the types above are those a chain of parents leads to |
| TypeGraph.CommonPointerType | Absolute-Analyzer/src/analyzer.cpp:1571-1606 | the answer is the least common supertype, or ambiguous exactly when common supertypes exist and none is least, or none |
| TypeGraph.AnswerIsUnique | Absolute-Analyzer/src/analyzer.cpp:1571-1606 | there is one answer, the same for both orders of the operands |
| ResourceWalks.Inspector.Inspect | Absolute-Analyzer/src/analyzer.cpp:1281-1347 | the walk with one visiting set leaves that set as it was and computes the function `Walk` |
| ResourceWalks.WalkDecidesReachability | Absolute-Analyzer/src/analyzer.cpp:1378-1522 | on every type table, cyclic ones included, each walk terminates and says yes exactly when a chain of elements, instance members and parents leads to a type that settles the question: an owning handle, an array, and what else the question counts |
| ResourceWalks.UncopyableOwnsReleases | Absolute-Analyzer/src/analyzer.cpp:1281-1522 | not copyable implies owning a unique resource implies having something to release |
| GenericNames.ParseGenericTypeName | Absolute-Analyzer/include/analyzer_internal.h:165-187 | the loop over one string computes `Parse` |
| GenericNames.PrintParse | Absolute-Analyzer/include/analyzer_internal.h:165-187 | printing what was parsed gives the same string back |
| GenericNames.ParsePrint | Absolute-Analyzer/include/analyzer_internal.h:165-187 | parsing a printed base and balanced arguments gives them back |
| GenericNames.ParseExactly | Absolute-Analyzer/include/analyzer_internal.h:165-187 | a string parses as a name exactly when it is that name printed, with a base, no empty argument, and brackets that match in all arguments but the last |
| GenericNames.BuildFunctionTypeName | Absolute-Analyzer/include/analyzer_internal.h:246-251 | appending parameter by parameter prints the generic name of the signature |
| GenericNames.FunctionNamesRoundTrip | Absolute-Analyzer/include/analyzer_internal.h:235-274 | func and cfunc names parse back to their signature and not to each other's |
| GenericNames.SignaturesPrintBack | Absolute-Analyzer/include/analyzer_internal.h:235-274 | a parsed signature prints the same name |
| GenericNames.SubstituteIdentity | Absolute-Analyzer/include/analyzer_internal.h:189-233 | substituting each parameter by itself leaves every string unchanged, `sub T` included |
| GenericNames.SubstitutePlain | Absolute-Analyzer/include/analyzer_internal.h:195-196 | a parameter becomes its binding, and any other plain name stays |
| GenericNames.SubstituteUnder | Absolute-Analyzer/include/analyzer_internal.h:191-198 | a reference or an array becomes the same over what is substituted |
| GenericNames.SubstituteHandles | Absolute-Analyzer/include/analyzer_internal.h:222-227 | a handle keeps its qualifier, and what it points to is substituted |
| GenericNames.SubstituteName | Absolute-Analyzer/include/analyzer_internal.h:228-236 | a generic name keeps its base, and each argument is substituted |
| GenericNames.SubstituteOpen | Absolute-Analyzer/include/analyzer_internal.h:199-219 | `sub T` stays while `T` stays, takes the place of the qualifier of the handle or array of handles `T` becomes, and is dropped on anything else |
| GenericNames.SubstituteUnified | Absolute-Analyzer/include/analyzer_internal.h:189-359 | the bindings a successful unification leaves turn the pattern into the type, for patterns without references and open qualifiers whose parts without a parameter are those of the type |
| GenericNames.MentionsExactly | Absolute-Analyzer/include/analyzer_internal.h:278-293 | a pattern mentions a parameter exactly when a chain of elements, pointees and arguments leads to one |
| GenericNames.UnifyGenericType | Absolute-Analyzer/include/analyzer_internal.h:295-359 | the loop that updates one map computes `Unify` |
| GenericNames.UnifyDecidesAgreement | Absolute-Analyzer/include/analyzer_internal.h:278-359 | unification keeps earlier bindings, succeeds exactly when some extension agrees with the pattern at every parameter position, and finds the least one |
| ArrayLiterals.InferArrayShape | Absolute-Analyzer/include/analyzer_internal.h:128-147 | the loop over the items computes `InferShape` |
| ArrayLiterals.ShapeIffRectangular | Absolute-Analyzer/include/analyzer_internal.h:128-147 | a shape is inferred exactly for rectangular literals |
| ArrayLiterals.RectangularIsInferred | Absolute-Analyzer/include/analyzer_internal.h:128-147 | and it is the literal's shape, up to its first empty dimension |
| ArrayLiterals.InferArrayStorageShape | Absolute-Analyzer/include/analyzer_internal.h:149-159 | a grouped literal for a flat array has one dimension, the product of its shape, unless a leading product overflows |
| ArrayLiterals.LeafCount | Absolute-Analyzer/src/analyzer_operators.cpp:388-396 | a rectangular literal has as many leaves as the product of its shape |
| ArrayLiterals.FlattenIsRowMajor | Absolute-Analyzer/src/analyzer_operators.cpp:388-396 | flattening puts the leaf at an index path at its row-major offset |
| ArrayLiterals.FlattenInto | Absolute-Analyzer/src/analyzer_operators.cpp:388-396 | filling the storage leaf by leaf computes the flattening |

## Left out

- FlowTheorems.AcceptedIsSafe: holds for the locals that meet `FlowFragment.CoveredIn`. For a raw owner or a task in scope that excludes calls that may throw, and do-while and try statements that change it; for a raw owner changed by a loop around which it is declared it excludes setting it to null before or inside that loop, and a `continue` after the turn may have given it a new allocation; for a plain local it excludes reads in a finally block. `FlowLimits` shows a misbehaving program for each of these; the condition is not necessary, because a program can break it and still happen to be safe. A switch without a case over an enum without members is excluded for owners only because no run passes it.
- FlowTheorems.AcceptedReleasesAll: the same fragment, for every local.
- FlowPrecision.ReportIsHarm: for text without try statements in which the local is never set to null, case labels fit and differ, a default is left a value, the body of a do-while can come to its end, and break and continue stand in a loop. `FlowAlarms` shows a complaint without reason for each of these that the checker does not itself report.
- FlowPrecision.StopsExactly: for the same text.
- FlowPrecision.AcceptedExactlyWhenSafe: for the text both theorems speak of.
- FlowStructure.MatchReports: reports that name a local in the arms are the matter of the other theorems.
- TaskPool.SleepNeedsALateLoad: for fewer than 2^32 jobs, because the wake word wraps.
- GenericNames.SubstituteUnified: a reference, or a qualifier that waits for a handle, is not seen by the search for parameters, so unification says nothing about it.
- FlowCoherence.CheckSteps: a do-while that changes a raw owner is excluded, because its exits leave out the entry; `FlowLimits.DoWhileDeletesTwice` is what comes of it.
- FlowTheorems.DoomIsReported: a switch that is never passed is excluded; `FlowTheorems.BlindSwitchHides` says why.
- FlowTheorems.ThrowsOnlyDrop: the same fragment with throwing calls anywhere; whether such a call meets an owner that is released already is not told from the text.
- FlowSoundness.SoundTry: owners and tasks the try changes are excluded, as above.
- FlowAnalyzer.Analyzer.PopValueFlowScope: aliases of a local that leaves its scope do not become expired, because borrowed pointers are not in this model.
- FlowAnalyzer.Analyzer.MergeFlowStates: the owner a pointer was borrowed from is not merged.
- FlowAnalyzer.Analyzer.VisitTry: owners an exception carries out of the try and the type checks of catch clauses are not modelled.
- FlowSoundness.TurnBack: one pass over a loop body is shown sound for the same programs.
- Forest.OwnerTable.Visit: nested targets such as `x.f.g` and the reports about pointer validity are not modelled.
- Forest.OwnershipStaysAForest: for attachment to a field of a named object, in straight-line code; nested targets, and merging of owners at joins, are not modelled.
- TypeGraph.CommonPointerType: for resolved, acyclic and non-generic type tables.
- ResourceWalks.WalkDecidesReachability: for non-generic types; the release walk keys its set on the bare generic base, which matters only for nested uses of one generic. Value references are stripped before the walks and are not types here.
- TcpBridge.CallsArePaired: for runs in which no wait times out.
- The statements `for`, `defer` and lambda bodies, `out` arguments, owner guards and the catch clauses' type checks are not modelled. `foreach` is the loop it stands for, in `FlowSyntax.ForEach`, without the checks of its source and variable types.
- Conditions and other expressions without an effect on the tables are dropped; calls may throw and do nothing else.
- Raw pointers that are not declared with `new raw` carry no delete obligation in the analyzer and none here; managed use after delete is a run-time check.
- Names, source positions and texts of diagnostics: a diagnostic is its code and its symbol.
- The shared-memory mode of the task pool follows the same slot protocol and has no payload; malloc, function tables and the heap of the WASM instances are the environment's choice of how an entry ends.
- Real sockets, and the connect, listen, accept and send requests, which only pass a result on.
- Overload resolution, code generation, the parser, the run-time library and the tools around the compiler.
