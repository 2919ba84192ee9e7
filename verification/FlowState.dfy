/** The two flow tables of the checker, the scope and loop stacks beside them, and the
    merge of the tables at a join. */
module FlowState {
  import opened FlowSyntax

  datatype Keep = Live | Deleted | MaybeDeleted

  datatype Init = Initialized | Uninitialized | MaybeUninitialized

  datatype Validity =
    | NotPointer | Null | LivePointer | DeletedPointer | Expired | MaybeNull | MaybeInvalid | Unknown

  datatype TaskState = NotTask | Pending | Awaited | MaybePending | UnknownTask

  datatype Flow = Flow(init: Init, validity: Validity, task: TaskState)

  type KeepMap = map<Id, Keep>
  type FlowMap = map<Id, Flow>

  datatype Code =
    | RawDeleteRequired | RawOverwrite | RawDoubleDelete
    | DeleteUninitialized | DeleteMaybeUninitialized
    | DoubleDelete | DeleteExpired | DeleteMaybeInvalid
    | NullDereference | MaybeNullDereference | UseAfterDelete | ExpiredDereference | MaybeInvalidDereference
    | TaskNotAwaited | TaskMayNotBeAwaited | TaskDoubleAwait | TaskMaybeDoubleAwait
    | UninitializedRead | MaybeUninitializedRead
    | FinallyControlTransfer | BreakOutsideLoop | ContinueOutsideLoop
    | SwitchCaseType | DuplicateSwitchCase | NonExhaustiveMatch
    | MissingReturn

  datatype Diagnostic = Diagnostic(code: Code, x: Id)

  const NO_SYMBOL: Id := 0xFFFF_FFFF

  datatype State = State(
    keep: KeepMap,                     // keepLifetimes
    flow: FlowMap,                     // valueFlow
    keepScopes: seq<seq<Id>>,
    flowScopes: seq<seq<Id>>,          // valueFlowScopes
    loopDepths: seq<nat>,              // loopKeepDepths; its length is loopDepth
    breakKeeps: seq<seq<KeepMap>>,     // loopBreakStates
    breakFlows: seq<seq<FlowMap>>,     // loopBreakValueStates
    terminated: bool,                  // flowTerminated
    finallyDepth: nat,
    diagnostics: seq<Diagnostic>)

  function Last<T>(s: seq<T>): T requires |s| > 0 { s[|s| - 1] }

  function ButLast<T>(s: seq<T>): seq<T> requires |s| > 0 { s[..|s| - 1] }

  function Report(st: State, code: Code, x: Id): State {
    st.(diagnostics := st.diagnostics + [Diagnostic(code, x)])
  }

  function ReportIf(condition: bool, st: State, code: Code, x: Id): State {
    if condition then Report(st, code, x) else st
  }

  // ---- Merging (MergeKeepPaths, MergeValueFlowPaths) ----

  function MergeKeep(a: Keep, b: Keep): Keep { if a == b then a else MaybeDeleted }

  function MergeInit(a: Init, b: Init): Init { if a == b then a else MaybeUninitialized }

  predicate Dangerous(v: Validity) { v in {DeletedPointer, Expired, MaybeInvalid} }

  predicate Nullable(v: Validity) { v in {Null, LivePointer, MaybeNull} }

  function MergeValidity(a: Validity, b: Validity): Validity {
    if a == b then a
    else if Dangerous(a) || Dangerous(b) then MaybeInvalid
    else if Nullable(a) && Nullable(b) then MaybeNull
    else if a == Null || b == Null then MaybeInvalid
    else Unknown
  }

  function MergeTask(a: TaskState, b: TaskState): TaskState {
    if a == b then a
    else if a in {Pending, MaybePending} || b in {Pending, MaybePending} then MaybePending
    else UnknownTask
  }

  function MergeFlow(a: Flow, b: Flow): Flow {
    Flow(MergeInit(a.init, b.init), MergeValidity(a.validity, b.validity), MergeTask(a.task, b.task))
  }

  function KeepAt(path: KeepMap, x: Id, base: Keep): Keep { if x in path then path[x] else base }

  function FlowAt(path: FlowMap, x: Id, base: Flow): Flow { if x in path then path[x] else base }

  /** One id at a join: the first path's state, then every later path merged in. */
  function JoinKeep(x: Id, base: Keep, paths: seq<KeepMap>): Keep
    requires |paths| > 0
  {
    if |paths| == 1 then KeepAt(paths[0], x, base)
    else MergeKeep(JoinKeep(x, base, ButLast(paths)), KeepAt(Last(paths), x, base))
  }

  function JoinFlow(x: Id, base: Flow, paths: seq<FlowMap>): Flow
    requires |paths| > 0
  {
    if |paths| == 1 then FlowAt(paths[0], x, base)
    else MergeFlow(JoinFlow(x, base, ButLast(paths)), FlowAt(Last(paths), x, base))
  }

  function MergeKeepPaths(base: KeepMap, paths: seq<KeepMap>): KeepMap {
    if |paths| == 0 then base else map x | x in base :: JoinKeep(x, base[x], paths)
  }

  function MergeFlowPaths(base: FlowMap, paths: seq<FlowMap>): FlowMap {
    if |paths| == 0 then base else map x | x in base :: JoinFlow(x, base[x], paths)
  }

  // ---- Leaving scopes (CheckKeepScopesFrom, CheckTaskScopesFrom, the Pop functions) ----

  function KeepReports(ids: seq<Id>, keep: KeepMap): seq<Diagnostic> {
    if |ids| == 0 then []
    else
      KeepReports(ButLast(ids), keep) +
      (if Last(ids) in keep && keep[Last(ids)] != Deleted
       then [Diagnostic(RawDeleteRequired, Last(ids))] else [])
  }

  function TaskReport(x: Id, flow: FlowMap): seq<Diagnostic> {
    if x in flow && flow[x].task == Pending then [Diagnostic(TaskNotAwaited, x)]
    else if x in flow && flow[x].task == MaybePending then [Diagnostic(TaskMayNotBeAwaited, x)]
    else []
  }

  function TaskReports(ids: seq<Id>, flow: FlowMap): seq<Diagnostic> {
    if |ids| == 0 then [] else TaskReports(ButLast(ids), flow) + TaskReport(Last(ids), flow)
  }

  function KeepScopeReports(scopes: seq<seq<Id>>, keep: KeepMap): seq<Diagnostic> {
    if |scopes| == 0 then []
    else KeepScopeReports(ButLast(scopes), keep) + KeepReports(Last(scopes), keep)
  }

  function TaskScopeReports(scopes: seq<seq<Id>>, flow: FlowMap): seq<Diagnostic> {
    if |scopes| == 0 then []
    else TaskScopeReports(ButLast(scopes), flow) + TaskReports(Last(scopes), flow)
  }

  function From(scopes: seq<seq<Id>>, first: nat): seq<seq<Id>> {
    if first <= |scopes| then scopes[first..] else []
  }

  function CheckKeepScopesFrom(st: State, first: nat): State {
    st.(diagnostics := st.diagnostics + KeepScopeReports(From(st.keepScopes, first), st.keep))
  }

  function CheckTaskScopesFrom(st: State, first: nat): State {
    st.(diagnostics := st.diagnostics + TaskScopeReports(From(st.flowScopes, first), st.flow))
  }

  function CheckScopesFrom(st: State, first: nat): State {
    CheckTaskScopesFrom(CheckKeepScopesFrom(st, first), first)
  }

  function IdsOf(ids: seq<Id>): set<Id> { set i | 0 <= i < |ids| :: ids[i] }

  function PushScopes(st: State): State {
    st.(keepScopes := st.keepScopes + [[]], flowScopes := st.flowScopes + [[]])
  }

  function PopFlowScope(st: State): State {
    if |st.flowScopes| == 0 then st
    else
      var s1 := if st.terminated then st else CheckTaskScopesFrom(st, |st.flowScopes| - 1);
      s1.(flow := st.flow - IdsOf(Last(st.flowScopes)), flowScopes := ButLast(st.flowScopes))
  }

  function PopKeepScope(st: State): State {
    if |st.keepScopes| == 0 then st
    else
      var s1 := if st.terminated then st else CheckKeepScopesFrom(st, |st.keepScopes| - 1);
      s1.(keep := st.keep - IdsOf(Last(st.keepScopes)), keepScopes := ButLast(st.keepScopes))
  }

  function PopScopes(st: State): State { PopKeepScope(PopFlowScope(st)) }

  function RegisterFlow(st: State, x: Id, f: Flow): State {
    var s := if |st.flowScopes| == 0 then st.(flowScopes := [[]]) else st;
    s.(flow := s.flow[x := f], flowScopes := ButLast(s.flowScopes) + [Last(s.flowScopes) + [x]])
  }

  function RegisterKeep(st: State, x: Id): State {
    var s := if |st.keepScopes| == 0 then st.(keepScopes := [[]]) else st;
    s.(keep := s.keep[x := Live], keepScopes := ButLast(s.keepScopes) + [Last(s.keepScopes) + [x]])
  }
}
