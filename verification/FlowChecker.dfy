/** What one visit of the checker does to its state, as functions.  The class Analyzer
    does the same updates in place and is proved to compute these functions. */
module FlowChecker {
  import opened FlowSyntax
  import opened FlowState

  /** A visit leaves the loop stacks as high as it found them. */
  predicate SameLoops(a: State, b: State) {
    |a.loopDepths| == |b.loopDepths| && |a.breakKeeps| == |b.breakKeeps| && |a.breakFlows| == |b.breakFlows|
  }

  datatype Paths = Paths(keeps: seq<KeepMap>, flows: seq<FlowMap>)

  const FRESH_RAW := Flow(Initialized, LivePointer, NotTask)
  const FRESH_TASK := Flow(Initialized, NotPointer, Pending)
  const FRESH_LOCAL := Flow(Uninitialized, NotPointer, NotTask)
  const NO_FLOW := Flow(Initialized, NotPointer, NotTask)

  function FlowOf(st: State, x: Id): Flow { FlowAt(st.flow, x, NO_FLOW) }

  function When(condition: bool, code: Code, x: Id): seq<Diagnostic> {
    if condition then [Diagnostic(code, x)] else []
  }

  function ReadReports(x: Id, st: State): seq<Diagnostic> {
    match FlowOf(st, x).init
    case Initialized => []
    case Uninitialized => [Diagnostic(UninitializedRead, x)]
    case MaybeUninitialized => [Diagnostic(MaybeUninitializedRead, x)]
  }

  function DerefReports(x: Id, st: State): seq<Diagnostic> {
    match FlowOf(st, x).validity
    case Null => [Diagnostic(NullDereference, x)]
    case MaybeNull => [Diagnostic(MaybeNullDereference, x)]
    case DeletedPointer => [Diagnostic(UseAfterDelete, x)]
    case Expired => [Diagnostic(ExpiredDereference, x)]
    case MaybeInvalid => [Diagnostic(MaybeInvalidDereference, x)]
    case _ => []
  }

  function DeleteReports(x: Id, st: State): seq<Diagnostic> {
    var f := FlowOf(st, x);
    When(f.init == Uninitialized, DeleteUninitialized, x) +
    When(f.init == MaybeUninitialized, DeleteMaybeUninitialized, x) +
    When(f.validity == DeletedPointer && x !in st.keep, DoubleDelete, x) +
    When(f.validity == Expired, DeleteExpired, x) +
    When(f.validity == MaybeInvalid, DeleteMaybeInvalid, x) +
    When(x in st.keep && st.keep[x] == Deleted, RawDoubleDelete, x)
  }

  function AwaitReports(x: Id, st: State): seq<Diagnostic> {
    When(FlowOf(st, x).task == Awaited, TaskDoubleAwait, x) +
    When(FlowOf(st, x).task == MaybePending, TaskMaybeDoubleAwait, x)
  }

  /** Report, then replace the entries of `x` where it has them. */
  function Update(st: State, reports: seq<Diagnostic>, x: Id, k: Keep, f: Flow): State {
    st.(diagnostics := st.diagnostics + reports,
        keep := if x in st.keep then st.keep[x := k] else st.keep,
        flow := if x in st.flow then st.flow[x := f] else st.flow)
  }

  function Reports(st: State, reports: seq<Diagnostic>): State {
    st.(diagnostics := st.diagnostics + reports)
  }

  function CheckDelete(x: Id, st: State): State {
    var f := FlowOf(st, x);
    Update(st, DeleteReports(x, st), x, Deleted,
           Flow(Initialized, if f.validity == Null then Null else DeletedPointer, f.task))
  }

  /** `x = value` where the value has the given validity and may be a fresh raw owner. */
  function CheckAssign(x: Id, createsRawOwner: bool, validity: Validity, st: State): State {
    Update(st, When(x in st.keep && st.keep[x] != Deleted, RawOverwrite, x), x,
           if createsRawOwner then Live else Deleted, Flow(Initialized, validity, NotTask))
  }

  function CheckAwait(x: Id, st: State): State {
    var s := Reports(st, ReadReports(x, st) + AwaitReports(x, st));
    s.(flow := if x in s.flow then s.flow[x := s.flow[x].(task := Awaited)] else s.flow)
  }

  function CheckOp(op: Op, x: Id, st: State): (r: State)
    ensures SameLoops(r, st)
  {
    match op
    case NewRaw => RegisterKeep(RegisterFlow(st, x, FRESH_RAW), x)
    case Delete => CheckDelete(x, st)
    case Renew => CheckAssign(x, true, LivePointer, st)
    case SetNull => CheckAssign(x, false, Null, st)
    case Deref => Reports(st, ReadReports(x, st) + DerefReports(x, st))
    case Spawn => RegisterFlow(st, x, FRESH_TASK)
    case Await => CheckAwait(x, st)
    case Declare => RegisterFlow(st, x, FRESH_LOCAL)
    case Assign => CheckAssign(x, false, NotPointer, st)
    case Read => Reports(st, ReadReports(x, st))
  }

  function EnterBranch(keep: KeepMap, flow: FlowMap, st: State): State {
    st.(keep := keep, flow := flow, terminated := false)
  }

  function AddPath(p: Paths, st: State): Paths {
    if st.terminated then p else Paths(p.keeps + [st.keep], p.flows + [st.flow])
  }

  /** After the branches: merge the paths that continue. */
  function Rejoin(keep: KeepMap, flow: FlowMap, p: Paths, terminated: bool, st: State): State {
    st.(keep := MergeKeepPaths(keep, p.keeps), flow := MergeFlowPaths(flow, p.flows), terminated := terminated)
  }

  function EnterLoop(st: State): State {
    st.(loopDepths := st.loopDepths + [|st.keepScopes|],
        breakKeeps := st.breakKeeps + [[]],
        breakFlows := st.breakFlows + [[]],
        terminated := false)
  }

  /** After one pass over a loop body.  `first` holds the exits besides the end of the
      body and the breaks: the state before the loop for a loop tested at the top. */
  function LeaveLoop(keep: KeepMap, flow: FlowMap, first: Paths, st: State): State
    requires |st.loopDepths| > 0 && |st.breakKeeps| > 0 && |st.breakFlows| > 0
  {
    var body := AddPath(first, st);
    var keeps := body.keeps + Last(st.breakKeeps);
    var flows := body.flows + Last(st.breakFlows);
    st.(keep := MergeKeepPaths(keep, if keeps == [] then [keep] else keeps),
        flow := MergeFlowPaths(flow, if flows == [] then [flow] else flows),
        loopDepths := ButLast(st.loopDepths),
        breakKeeps := ButLast(st.breakKeeps),
        breakFlows := ButLast(st.breakFlows),
        terminated := false)
  }

  /** `break` and `continue` look only at scopes opened inside the loop; a continue
      records the value table and not the keep table. */
  function CheckLoopExit(isBreak: bool, st: State): State {
    var s := ReportIf(st.finallyDepth > 0, st, FinallyControlTransfer, NO_SYMBOL);
    if |s.loopDepths| == 0 || |s.breakKeeps| == 0 || |s.breakFlows| == 0 then
      Report(s, if isBreak then BreakOutsideLoop else ContinueOutsideLoop, NO_SYMBOL)
    else
      var s1 := CheckScopesFrom(s, Last(s.loopDepths));
      s1.(breakKeeps := if isBreak
                        then ButLast(s1.breakKeeps) + [Last(s1.breakKeeps) + [s1.keep]] else s1.breakKeeps,
          breakFlows := ButLast(s1.breakFlows) + [Last(s1.breakFlows) + [s1.flow]],
          terminated := true)
  }

  /** `return` and `throw`. */
  function CheckFunctionExit(st: State): State {
    CheckScopesFrom(ReportIf(st.finallyDepth > 0, st, FinallyControlTransfer, NO_SYMBOL), 0)
      .(terminated := true)
  }

  // ---- Switch labels ----

  /** Whether the labels cover every value of the selector, without a default. */
  predicate Covers(on: Selector, labels: set<Label>) {
    match on
    case OnInt => false
    case OnBool => BoolCase(true) in labels && BoolCase(false) in labels
    case OnEnum(members) => forall m | m in members :: MemberCase(m) in labels
  }

  /** Where a list of branches stands: an if chain, the cases of a switch, or catch clauses. */
  datatype ArmKind = IfChain | SwitchOn(on: Selector) | Catches

  function CheckLabel(on: Selector, tag: Label, seen: set<Label>, st: State): State {
    var s := ReportIf(!LabelFits(on, tag), st, SwitchCaseType, NO_SYMBOL);
    ReportIf(tag in seen, s, DuplicateSwitchCase, NO_SYMBOL)
  }

  /** Before the body of a branch: a case checks its label, a catch clause opens a scope of
      its own for the exception. */
  function EnterArm(kind: ArmKind, tag: Label, seen: set<Label>, st: State): (r: State)
    ensures SameLoops(r, st)
  {
    match kind
    case IfChain => st
    case SwitchOn(on) => CheckLabel(on, tag, seen, st)
    case Catches => if tag.Caught? then RegisterFlow(PushScopes(st), tag.x, FRESH_RAW) else PushScopes(st)
  }

  function LeaveArm(kind: ArmKind, st: State): State {
    if kind.Catches? then PopScopes(st) else st
  }

  // ---- Statements ----

  function Check(s: Stmt, st: State): (r: State)
    ensures SameLoops(r, st)
    decreases s, 2
  {
    match s
    case Do(op, x) => CheckOp(op, x, st)
    case Call(_) => st
    case Block(body) => CheckBlock(body, st)
    case If(_, _) => CheckIf(s, st)
    case Switch(_, _, _, _) => CheckSwitch(s, st)
    case While(body) => CheckLoop(body, Paths([st.keep], [st.flow]), st)
    case DoWhile(body) => CheckLoop(body, Paths([], []), st)
    case Try(_, _, _) => CheckTry(s, st)
    case Throw => CheckFunctionExit(st)
    case Break => CheckLoopExit(true, st)
    case Continue => CheckLoopExit(false, st)
    case Return => CheckFunctionExit(st)
  }

  function CheckIf(s: Stmt, st: State): (r: State)
    requires s.If?
    ensures SameLoops(r, st)
    decreases s, 0
  {
    var (s1, p1) := CheckArms(IfChain, s.arms, {}, st.keep, st.flow, st, Paths([], []));
    var (s2, p2) := CheckElse(s.els, st.keep, st.flow, true, s1, p1);
    Rejoin(st.keep, st.flow, p2, p2.keeps == [], s2)
  }

  function CheckSwitch(s: Stmt, st: State): (r: State)
    requires s.Switch?
    ensures SameLoops(r, st)
    decreases s, 0
  {
    var (s1, p1) := CheckArms(SwitchOn(s.on), s.arms, {}, st.keep, st.flow, st, Paths([], []));
    var all := s.els.ElseBody? || Covers(s.on, Labels(s.arms));
    var (s2, p2) := CheckElse(s.els, st.keep, st.flow, !all, s1, p1);
    var s3 := ReportIf(s.exhaustive && !all, s2, NonExhaustiveMatch, NO_SYMBOL);
    Rejoin(st.keep, st.flow, p2, all && p2.keeps == [], s3)
  }

  /** `first` holds the exits a loop has before its body is walked: the entry state for
      a loop tested at the top, none for one tested at the bottom. */
  function CheckLoop(body: Stmts, first: Paths, st: State): (r: State)
    ensures SameLoops(r, st)
    decreases body, 2
  {
    LeaveLoop(st.keep, st.flow, first, CheckBlock(body, EnterLoop(st)))
  }

  function CheckTry(s: Stmt, st: State): (r: State)
    requires s.Try?
    ensures SameLoops(r, st)
    decreases s, 1
  {
    CheckFinally(s.fin, CheckGuarded(s, st))
  }

  /** The body of a try and its catch clauses. */
  function CheckGuarded(s: Stmt, st: State): (r: State)
    requires s.Try?
    ensures SameLoops(r, st)
    decreases s, 0
  {
    var s1 := CheckBlock(s.body, EnterBranch(st.keep, st.flow, st));
    var (s2, p) := CheckArms(Catches, s.handlers, {}, st.keep, st.flow, s1, AddPath(Paths([], []), s1));
    Rejoin(st.keep, st.flow, p, p.keeps == [], s2)
  }

  /** The statements of a block: the walk stops at the first one that terminates. */
  function CheckAll(ss: Stmts, st: State): (r: State)
    ensures SameLoops(r, st)
    decreases ss, 0
  {
    match ss
    case End => st
    case Then(s, tail) =>
      var s1 := Check(s, st);
      if s1.terminated then s1 else CheckAll(tail, s1)
  }

  function CheckBlock(body: Stmts, st: State): (r: State)
    ensures SameLoops(r, st)
    decreases body, 1
  {
    PopScopes(CheckAll(body, PushScopes(st)))
  }

  /** One branch after another, each from the tables `keep` and `flow`. */
  function CheckArms(kind: ArmKind, arms: Arms, seen: set<Label>,
                     keep: KeepMap, flow: FlowMap, st: State, p: Paths): (r: (State, Paths))
    ensures SameLoops(r.0, st)
    decreases arms, 0
  {
    match arms
    case NoArms => (st, p)
    case Arm(tag, body, rest) =>
      var s1 := CheckBlock(body, EnterArm(kind, tag, seen, EnterBranch(keep, flow, st)));
      CheckArms(kind, rest, seen + {tag}, keep, flow, LeaveArm(kind, s1), AddPath(p, s1))
  }

  /** The else branch or default case; without one, the entry state is a path when `open`. */
  function CheckElse(els: Else, keep: KeepMap, flow: FlowMap, open: bool, st: State, p: Paths): (r: (State, Paths))
    ensures SameLoops(r.0, st)
    decreases els, 0
  {
    match els
    case NoElse => (st, if open then Paths(p.keeps + [keep], p.flows + [flow]) else p)
    case ElseBody(body) =>
      var s1 := CheckBlock(body, EnterBranch(keep, flow, st));
      (s1, AddPath(p, s1))
  }

  function CheckFinally(fin: Else, st: State): (r: State)
    ensures SameLoops(r, st)
    decreases fin, 0
  {
    match fin
    case NoElse => st
    case ElseBody(body) =>
      var s1 := CheckBlock(body, st.(terminated := false, finallyDepth := st.finallyDepth + 1));
      s1.(finallyDepth := st.finallyDepth, terminated := s1.terminated || st.terminated)
  }

  /** Empty tables, one scope of each kind. */
  const START := State(map[], map[], [[]], [[]], [], [], [], false, 0, [])

  /** A whole function body (ResolveFunction), from empty tables. */
  function CheckFunction(body: Stmts, returnsValue: bool): State {
    var s1 := CheckBlock(body, START);
    PopScopes(ReportIf(returnsValue && !s1.terminated, s1, MissingReturn, NO_SYMBOL))
  }

  predicate Accepted(body: Stmts, returnsValue: bool) {
    CheckFunction(body, returnsValue).diagnostics == []
  }
}
