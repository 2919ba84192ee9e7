/** What no visit of the checker disturbs: the scope stacks under the innermost scope, the
    loop stacks under the innermost loop, and the diagnostics already reported.  The keep
    and value-flow scope stacks keep equal heights, so one loop depth indexes both. */
module FlowFrame {
  import opened FlowSyntax
  import opened FlowState
  import opened FlowChecker

  /** The state a body is visited in. */
  predicate Ready(st: State) {
    && |st.keepScopes| == |st.flowScopes| > 0
    && |st.loopDepths| == |st.breakKeeps| == |st.breakFlows|
  }

  /** Only the last element of a stack has grown. */
  predicate TopGrows<T(==)>(a: seq<seq<T>>, b: seq<seq<T>>) {
    |a| == |b| && (|a| > 0 ==> ButLast(a) == ButLast(b) && Last(a) <= Last(b))
  }

  predicate Frame(st: State, r: State) {
    && r.loopDepths == st.loopDepths
    && r.finallyDepth == st.finallyDepth
    && TopGrows(st.breakKeeps, r.breakKeeps)
    && TopGrows(st.breakFlows, r.breakFlows)
    && st.diagnostics <= r.diagnostics
  }

  predicate Grows(st: State, r: State) {
    Frame(st, r) && TopGrows(st.keepScopes, r.keepScopes) && TopGrows(st.flowScopes, r.flowScopes)
  }

  predicate SameScopes(st: State, r: State) {
    Frame(st, r) && r.keepScopes == st.keepScopes && r.flowScopes == st.flowScopes
  }

  /** Nothing was reported between the two states. */
  predicate Quiet(st: State, r: State) { r.diagnostics == st.diagnostics }

  lemma QuietSplit(a: State, b: State, c: State)
    requires a.diagnostics <= b.diagnostics <= c.diagnostics
    requires Quiet(a, c)
    ensures Quiet(a, b) && Quiet(b, c)
  {
  }

  lemma FrameTransitive(a: State, b: State, c: State)
    requires Frame(a, b) && Frame(b, c)
    ensures Frame(a, c)
  {
  }

  lemma SameTransitive(a: State, b: State, c: State)
    requires SameScopes(a, b) && SameScopes(b, c)
    ensures SameScopes(a, c)
  {
    FrameTransitive(a, b, c);
  }

  // ---- What a visit records for the innermost loop ----

  function NewFlows(st: State, r: State): seq<FlowMap> {
    if |r.breakFlows| == 0 || |st.breakFlows| == 0 || |Last(st.breakFlows)| > |Last(r.breakFlows)| then []
    else Last(r.breakFlows)[|Last(st.breakFlows)|..]
  }

  function NewKeeps(st: State, r: State): seq<KeepMap> {
    if |r.breakKeeps| == 0 || |st.breakKeeps| == 0 || |Last(st.breakKeeps)| > |Last(r.breakKeeps)| then []
    else Last(r.breakKeeps)[|Last(st.breakKeeps)|..]
  }

  lemma NewTransitive(a: State, b: State, c: State)
    requires Frame(a, b) && Frame(b, c) && Ready(a) && Ready(b) && Ready(c)
    ensures NewFlows(a, c) == NewFlows(a, b) + NewFlows(b, c)
    ensures NewKeeps(a, c) == NewKeeps(a, b) + NewKeeps(b, c)
  {
    if |a.breakFlows| > 0 {
      var f, g, h := Last(a.breakFlows), Last(b.breakFlows), Last(c.breakFlows);
      assert h[|f|..] == h[|f|..|g|] + h[|g|..];
      assert h[|f|..|g|] == g[|f|..];
      var k, l, m := Last(a.breakKeeps), Last(b.breakKeeps), Last(c.breakKeeps);
      assert m[|k|..] == m[|k|..|l|] + m[|l|..];
      assert m[|k|..|l|] == l[|k|..];
    }
  }

  lemma SameExits(a: State, b: State, c: State, d: State)
    requires a.breakFlows == b.breakFlows && a.breakKeeps == b.breakKeeps
    requires c.breakFlows == d.breakFlows && c.breakKeeps == d.breakKeeps
    ensures NewFlows(a, c) == NewFlows(b, d) && NewKeeps(a, c) == NewKeeps(b, d)
  {
  }

  // ---- Every visit ----

  lemma OpGrows(op: Op, x: Id, st: State)
    requires Ready(st)
    ensures Grows(st, CheckOp(op, x, st))
  {
  }

  lemma ScopeChecks(st: State, first: nat)
    ensures SameScopes(st, CheckScopesFrom(st, first))
  {
  }

  lemma FunctionExitGrows(st: State)
    ensures SameScopes(st, CheckFunctionExit(st))
  {
    ScopeChecks(ReportIf(st.finallyDepth > 0, st, FinallyControlTransfer, NO_SYMBOL), 0);
  }

  lemma LoopExitGrows(isBreak: bool, st: State)
    requires Ready(st)
    ensures SameScopes(st, CheckLoopExit(isBreak, st))
  {
    var s := ReportIf(st.finallyDepth > 0, st, FinallyControlTransfer, NO_SYMBOL);
    if |s.loopDepths| > 0 {
      ScopeChecks(s, Last(s.loopDepths));
    }
  }

  /** What a break or continue inside a loop records. */
  lemma LoopExitRecords(isBreak: bool, st: State)
    requires Ready(st) && |st.loopDepths| > 0
    ensures var r := CheckLoopExit(isBreak, st);
            && r.keep == st.keep && r.flow == st.flow && r.terminated
            && |r.breakFlows| > 0 && Last(r.breakFlows) == Last(st.breakFlows) + [st.flow]
            && |r.breakKeeps| > 0
            && Last(r.breakKeeps) == if isBreak then Last(st.breakKeeps) + [st.keep] else Last(st.breakKeeps)
  {
  }

  lemma LeaveLists(st: State, first: Paths, s1: State)
    requires Ready(st) && Ready(s1) && Frame(EnterLoop(st), s1)
    ensures var r := LeaveLoop(st.keep, st.flow, first, s1);
            r.breakKeeps == st.breakKeeps && r.breakFlows == st.breakFlows && r.loopDepths == st.loopDepths
  {
  }

  lemma PopShrinks(st: State, r: State)
    requires Ready(st) && Grows(PushScopes(st), r)
    ensures SameScopes(st, PopScopes(r))
  {
    var top := |r.flowScopes| - 1;
    ScopeChecks(r, top);
  }

  /** A case label may be reported; nothing else happens. */
  lemma LabelOnly(on: Selector, tag: Label, seen: set<Label>, st: State)
    ensures var r := CheckLabel(on, tag, seen, st);
            r == st.(diagnostics := r.diagnostics) && st.diagnostics <= r.diagnostics
  {
    hide LabelFits;
  }

  /** A catch parameter enters a scope of its own. */
  lemma CatchOnly(x: Id, st: State)
    requires Ready(st)
    ensures RegisterFlow(PushScopes(st), x, FRESH_RAW) ==
            PushScopes(st).(flow := st.flow[x := FRESH_RAW], flowScopes := st.flowScopes + [[x]])
  {
    assert ButLast(PushScopes(st).flowScopes) == st.flowScopes && Last(PushScopes(st).flowScopes) + [x] == [x];
  }

  lemma EnterArmGrows(kind: ArmKind, tag: Label, seen: set<Label>, st: State)
    requires Ready(st)
    ensures var r := EnterArm(kind, tag, seen, st);
            Ready(r) && if kind.Catches? then Grows(PushScopes(st), r) else SameScopes(st, r)
  {
    hide CheckLabel, RegisterFlow;
    match kind
    case IfChain =>
    case SwitchOn(on) => LabelOnly(on, tag, seen, st);
    case Catches => if tag.Caught? { CatchOnly(tag.x, st); }
  }

  lemma SameArm(s0: State, s1: State, s2: State, kind: ArmKind)
    requires Ready(s0) && SameScopes(s1, s2)
    requires if kind.Catches? then Grows(PushScopes(s0), s1) else SameScopes(s0, s1)
    ensures SameScopes(s0, LeaveArm(kind, s2))
  {
    FrameTransitive(s0, s1, s2);
    if kind.Catches? { PopShrinks(s0, s2); }
  }

  lemma SameGrows(st: State, r: State)
    requires Ready(st)
    ensures SameScopes(st, r) ==> Ready(r) && Grows(st, r)
    ensures Grows(st, r) ==> Ready(r)
    ensures SameScopes(st, st)
  {
  }

  lemma {:induction false} CheckGrows(s: Stmt, st: State)
    requires Ready(st)
    ensures Ready(Check(s, st)) && Grows(st, Check(s, st))
    decreases s, 2
  {
    hide CheckOp, CheckBlock, CheckIf, CheckSwitch, CheckLoop, CheckTry, CheckLoopExit, CheckFunctionExit, TopGrows;
    SameGrows(st, Check(s, st));
    match s
    case Do(op, x) => OpGrows(op, x, st);
    case Call(_) =>
    case Block(body) => BlockGrows(body, st);
    case If(_, _) => IfGrows(s, st);
    case Switch(_, _, _, _) => SwitchGrows(s, st);
    case While(body) => LoopGrows(body, Paths([st.keep], [st.flow]), st);
    case DoWhile(body) => LoopGrows(body, Paths([], []), st);
    case Try(_, _, _) => TryGrows(s, st);
    case Throw => FunctionExitGrows(st);
    case Return => FunctionExitGrows(st);
    case Break => LoopExitGrows(true, st);
    case Continue => LoopExitGrows(false, st);
  }

  lemma {:induction false} IfGrows(s: Stmt, st: State)
    requires s.If? && Ready(st)
    ensures Ready(CheckIf(s, st)) && SameScopes(st, CheckIf(s, st))
    decreases s, 0
  {
    var (s1, p1) := CheckArms(IfChain, s.arms, {}, st.keep, st.flow, st, Paths([], []));
    ArmsGrow(IfChain, s.arms, {}, st.keep, st.flow, st, Paths([], []));
    ElseGrows(s.els, st.keep, st.flow, true, s1, p1);
    var (s2, p2) := CheckElse(s.els, st.keep, st.flow, true, s1, p1);
    SameTransitive(st, s1, s2);
  }

  lemma {:induction false} SwitchGrows(s: Stmt, st: State)
    requires s.Switch? && Ready(st)
    ensures Ready(CheckSwitch(s, st)) && SameScopes(st, CheckSwitch(s, st))
    decreases s, 0
  {
    var (s1, p1) := CheckArms(SwitchOn(s.on), s.arms, {}, st.keep, st.flow, st, Paths([], []));
    ArmsGrow(SwitchOn(s.on), s.arms, {}, st.keep, st.flow, st, Paths([], []));
    var all := s.els.ElseBody? || Covers(s.on, Labels(s.arms));
    ElseGrows(s.els, st.keep, st.flow, !all, s1, p1);
    var (s2, p2) := CheckElse(s.els, st.keep, st.flow, !all, s1, p1);
    SameTransitive(st, s1, s2);
  }

  lemma {:induction false} TryGrows(s: Stmt, st: State)
    requires s.Try? && Ready(st)
    ensures Ready(CheckTry(s, st)) && SameScopes(st, CheckTry(s, st))
    decreases s, 1
  {
    var s1 := CheckGuarded(s, st);
    GuardedGrows(s, st);
    FinallyGrows(s.fin, s1);
    SameTransitive(st, s1, CheckFinally(s.fin, s1));
  }

  lemma {:induction false} GuardedGrows(s: Stmt, st: State)
    requires s.Try? && Ready(st)
    ensures Ready(CheckGuarded(s, st)) && SameScopes(st, CheckGuarded(s, st))
    decreases s, 0
  {
    var s0 := EnterBranch(st.keep, st.flow, st);
    BlockGrows(s.body, s0);
    var s1 := CheckBlock(s.body, s0);
    var p1 := AddPath(Paths([], []), s1);
    ArmsGrow(Catches, s.handlers, {}, st.keep, st.flow, s1, p1);
    var (s2, p) := CheckArms(Catches, s.handlers, {}, st.keep, st.flow, s1, p1);
    SameTransitive(s0, s1, s2);
  }

  lemma {:induction false} AllGrows(ss: Stmts, st: State)
    requires Ready(st)
    ensures Ready(CheckAll(ss, st)) && Grows(st, CheckAll(ss, st))
    decreases ss, 0
  {
    match ss
    case End =>
    case Then(s, tail) =>
      CheckGrows(s, st);
      if !Check(s, st).terminated { AllGrows(tail, Check(s, st)); }
  }

  lemma {:induction false} BlockGrows(body: Stmts, st: State)
    requires Ready(st)
    ensures Ready(CheckBlock(body, st)) && SameScopes(st, CheckBlock(body, st))
    decreases body, 1
  {
    AllGrows(body, PushScopes(st));
    PopShrinks(st, CheckAll(body, PushScopes(st)));
  }

  lemma {:induction false} LoopGrows(body: Stmts, first: Paths, st: State)
    requires Ready(st)
    ensures Ready(CheckLoop(body, first, st)) && SameScopes(st, CheckLoop(body, first, st))
    decreases body, 2
  {
    BlockGrows(body, EnterLoop(st));
  }

  lemma {:induction false} ArmsGrow(kind: ArmKind, arms: Arms, seen: set<Label>,
                                    keep: KeepMap, flow: FlowMap, st: State, p: Paths)
    requires Ready(st)
    ensures var (r, q) := CheckArms(kind, arms, seen, keep, flow, st, p);
            Ready(r) && SameScopes(st, r) && p.keeps <= q.keeps && p.flows <= q.flows
            && (|p.keeps| == |p.flows| ==> |q.keeps| == |q.flows|)
    decreases arms, 0
  {
    hide CheckBlock, EnterArm, LeaveArm, TopGrows;
    match arms
    case NoArms => SameGrows(st, st);
    case Arm(tag, body, rest) =>
      var s0 := EnterBranch(keep, flow, st);
      EnterArmGrows(kind, tag, seen, s0);
      var s1 := EnterArm(kind, tag, seen, s0);
      BlockGrows(body, s1);
      var s2 := CheckBlock(body, s1);
      var s3 := LeaveArm(kind, s2);
      SameArm(s0, s1, s2, kind);
      SameGrows(s0, s3);
      ArmsGrow(kind, rest, seen + {tag}, keep, flow, s3, AddPath(p, s2));
      SameTransitive(s0, s3, CheckArms(kind, rest, seen + {tag}, keep, flow, s3, AddPath(p, s2)).0);
  }

  lemma {:induction false} ElseGrows(els: Else, keep: KeepMap, flow: FlowMap, open: bool, st: State, p: Paths)
    requires Ready(st)
    ensures var (r, q) := CheckElse(els, keep, flow, open, st, p);
            Ready(r) && SameScopes(st, r) && p.keeps <= q.keeps && p.flows <= q.flows
            && (|p.keeps| == |p.flows| ==> |q.keeps| == |q.flows|)
    decreases els, 0
  {
    if els.ElseBody? { BlockGrows(els.body, EnterBranch(keep, flow, st)); }
  }

  lemma {:induction false} FinallyGrows(fin: Else, st: State)
    requires Ready(st)
    ensures Ready(CheckFinally(fin, st)) && SameScopes(st, CheckFinally(fin, st))
    decreases fin, 0
  {
    if fin.ElseBody? {
      BlockGrows(fin.body, st.(terminated := false, finallyDepth := st.finallyDepth + 1));
    }
  }

  lemma PopQuiet(st: State)
    requires Ready(st)
    ensures st.diagnostics <= PopScopes(st).diagnostics
    ensures PopScopes(st).breakFlows == st.breakFlows && PopScopes(st).breakKeeps == st.breakKeeps
    ensures PopScopes(st).terminated == st.terminated && PopScopes(st).loopDepths == st.loopDepths
  {
  }

  lemma ArmKeepsFrame(kind: ArmKind, tag: Label, body: Stmts, seen: set<Label>, keep: KeepMap, flow: FlowMap, st: State)
    requires Ready(st)
    ensures var s0 := EnterBranch(keep, flow, st);
            var s2 := CheckBlock(body, EnterArm(kind, tag, seen, s0));
            && Frame(s0, LeaveArm(kind, s2)) && Ready(LeaveArm(kind, s2))
            && Ready(s2) && s2.breakFlows == LeaveArm(kind, s2).breakFlows
               && s2.breakKeeps == LeaveArm(kind, s2).breakKeeps
            && s0.diagnostics <= s2.diagnostics <= LeaveArm(kind, s2).diagnostics
  {
    var s0 := EnterBranch(keep, flow, st);
    var s1 := EnterArm(kind, tag, seen, s0);
    var s2 := CheckBlock(body, s1);
    EnterArmGrows(kind, tag, seen, s0);
    BlockGrows(body, s1);
    SameArm(s0, s1, s2, kind);
    PopQuiet(s2);
  }
}
