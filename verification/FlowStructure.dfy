/** What the checker says about the structure of a body, read off the text alone: where control
    cannot go on, and which reports there are that name no local.  Nothing here mentions a table
    of the checker or the way it decides whether the labels of a switch are complete. */
module FlowStructure {
  import opened FlowSyntax
  import opened FlowState
  import opened FlowChecker
  import opened FlowFrame

  // ---- The text ----

  /** Every value of the selector is the label of a case. */
  ghost predicate EveryValue(on: Selector, arms: Arms) { forall v | LabelFits(on, v) :: v in Labels(arms) }

  /** Case labels that fit the selector. */
  ghost predicate Fit(on: Selector, arms: Arms) { forall v | v in Labels(arms) :: LabelFits(on, v) }

  /** Some label stands at two cases. */
  predicate Repeats(arms: Arms) { arms.Arm? && (arms.tag in Labels(arms.rest) || Repeats(arms.rest)) }

  /** No way through the text comes to its end.  A loop can always end; break and continue stop
      the text around them only inside a loop. */
  ghost predicate Stops(s: Stmt, looped: bool) {
    match s
    case Throw | Return => true
    case Break | Continue => looped
    case Block(body) => StopsAll(body, looped)
    case If(arms, els) => els.ElseBody? && StopsArms(arms, looped) && StopsAll(els.body, looped)
    case Switch(on, _, arms, els) =>
      StopsArms(arms, looped) && if els.ElseBody? then StopsAll(els.body, looped) else EveryValue(on, arms)
    case Try(body, handlers, fin) =>
      || (StopsAll(body, looped) && StopsArms(handlers, looped))
      || (fin.ElseBody? && StopsAll(fin.body, looped))
    case _ => false
  }

  ghost predicate StopsAll(ss: Stmts, looped: bool) {
    ss.Then? && (Stops(ss.head, looped) || StopsAll(ss.tail, looped))
  }

  ghost predicate StopsArms(arms: Arms, looped: bool) {
    arms.Arm? ==> StopsAll(arms.body, looped) && StopsArms(arms.rest, looped)
  }

  /** The reports that name no local. */
  predicate Structural(code: Code) {
    || code.FinallyControlTransfer? || code.BreakOutsideLoop? || code.ContinueOutsideLoop? || code.SwitchCaseType?
    || code.DuplicateSwitchCase? || code.NonExhaustiveMatch? || code.MissingReturn?
  }

  /** The text has the mistake the code stands for, where control can come: `looped` inside a
      loop, `closed` inside a finally block. */
  ghost predicate Wrong(s: Stmt, code: Code, looped: bool, closed: bool) {
    match s
    case Block(body) => WrongAll(body, code, looped, closed)
    case If(arms, els) => WrongArms(arms, code, looped, closed) || WrongElse(els, code, looped, closed)
    case Switch(on, exhaustive, arms, els) =>
      || WrongArms(arms, code, looped, closed) || WrongElse(els, code, looped, closed)
      || (code == SwitchCaseType && !Fit(on, arms))
      || (code == DuplicateSwitchCase && Repeats(arms))
      || (code == NonExhaustiveMatch && exhaustive && els.NoElse? && !EveryValue(on, arms))
    case While(body) => WrongAll(body, code, true, closed)
    case DoWhile(body) => WrongAll(body, code, true, closed)
    case Try(body, handlers, fin) =>
      || WrongAll(body, code, looped, closed) || WrongArms(handlers, code, looped, closed)
      || WrongElse(fin, code, looped, true)
    case Throw | Return => code == FinallyControlTransfer && closed
    case Break => (code == FinallyControlTransfer && closed) || (code == BreakOutsideLoop && !looped)
    case Continue => (code == FinallyControlTransfer && closed) || (code == ContinueOutsideLoop && !looped)
    case _ => false
  }

  /** Nothing is said about what follows a statement that stops. */
  ghost predicate WrongAll(ss: Stmts, code: Code, looped: bool, closed: bool) {
    ss.Then? &&
    (Wrong(ss.head, code, looped, closed) || (!Stops(ss.head, looped) && WrongAll(ss.tail, code, looped, closed)))
  }

  ghost predicate WrongArms(arms: Arms, code: Code, looped: bool, closed: bool) {
    arms.Arm? && (WrongAll(arms.body, code, looped, closed) || WrongArms(arms.rest, code, looped, closed))
  }

  ghost predicate WrongElse(els: Else, code: Code, looped: bool, closed: bool) {
    els.ElseBody? && WrongAll(els.body, code, looped, closed)
  }

  // ---- The values left ----

  /** An int above every label. */
  lemma {:induction false} NewInt(arms: Arms) returns (n: int)
    ensures forall i | i >= n :: IntCase(i) !in Labels(arms)
  {
    n := 0;
    if arms.Arm? {
      n := NewInt(arms.rest);
      if arms.tag.IntCase? && arms.tag.n >= n { n := arms.tag.n + 1; }
    }
  }

  /** The checker's test of the labels decides whether every value is one. */
  lemma CoversIs(on: Selector, arms: Arms)
    ensures Covers(on, Labels(arms)) <==> EveryValue(on, arms)
  {
    if EveryValue(on, arms) {
      match on
      case OnInt =>
        var n := NewInt(arms);
        assert LabelFits(on, IntCase(n));
      case OnBool => assert LabelFits(on, BoolCase(true)) && LabelFits(on, BoolCase(false));
      case OnEnum(members) => assert forall m | m in members :: LabelFits(on, MemberCase(m));
    }
  }

  // ---- Where control goes on ----

  predicate Looped(st: State) { |st.loopDepths| > 0 }

  lemma {:induction false} StmtStops(s: Stmt, st: State)
    requires Ready(st) && !st.terminated
    ensures Check(s, st).terminated <==> Stops(s, Looped(st))
    decreases s, 2
  {
    hide CheckArms, CheckElse, CheckBlock, CheckFinally, CheckGuarded, CheckOp, CheckScopesFrom, Covers, EveryValue,
         StopsAll, StopsArms, CheckLoop;
    match s
    case Do(op, x) => OpGoesOn(op, x, st);
    case Block(body) => BlockStops(body, st);
    case If(_, _) => BranchesStop(s, IfChain, true, st);
    case Switch(on, _, arms, els) =>
      BranchesStop(s, SwitchOn(on), !(els.ElseBody? || Covers(on, Labels(arms))), st);
      CoversIs(on, arms);
    case While(body) => LoopGoesOn(body, Paths([st.keep], [st.flow]), st);
    case DoWhile(body) => LoopGoesOn(body, Paths([], []), st);
    case Try(_, _, _) => TryStops(s, st);
    case _ =>
  }

  lemma OpGoesOn(op: Op, x: Id, st: State)
    requires !st.terminated
    ensures !CheckOp(op, x, st).terminated
  {
  }

  lemma LoopGoesOn(body: Stmts, first: Paths, st: State)
    ensures !CheckLoop(body, first, st).terminated
  {
    hide CheckBlock, MergeKeepPaths, MergeFlowPaths;
  }

  lemma {:induction false} AllStop(ss: Stmts, st: State)
    requires Ready(st) && !st.terminated
    ensures CheckAll(ss, st).terminated <==> StopsAll(ss, Looped(st))
    decreases ss, 0
  {
    hide Check, Stops;
    if ss.Then? {
      StmtStops(ss.head, st);
      CheckGrows(ss.head, st);
      if !Check(ss.head, st).terminated { AllStop(ss.tail, Check(ss.head, st)); }
    }
  }

  lemma PopGoesOn(st: State)
    ensures PopScopes(st).terminated == st.terminated
  {
  }

  lemma {:induction false} BlockStops(body: Stmts, st: State)
    requires Ready(st) && !st.terminated
    ensures CheckBlock(body, st).terminated <==> StopsAll(body, Looped(st))
    decreases body, 1
  {
    hide CheckAll, PopScopes, StopsAll;
    AllStop(body, PushScopes(st));
    PopGoesOn(CheckAll(body, PushScopes(st)));
  }

  /** The branches add a path exactly when not all of them stop. */
  lemma {:induction false} ArmsStop(kind: ArmKind, arms: Arms, seen: set<Label>, keep: KeepMap, flow: FlowMap,
                                    st: State, p: Paths)
    requires Ready(st)
    ensures var n := |CheckArms(kind, arms, seen, keep, flow, st, p).1.keeps|;
            n >= |p.keeps| && (n == |p.keeps| <==> StopsArms(arms, Looped(st)))
    decreases arms, 0
  {
    hide CheckBlock, EnterArm, LeaveArm, StopsAll;
    if arms.Arm? {
      var s0 := EnterBranch(keep, flow, st);
      var s1 := EnterArm(kind, arms.tag, seen, s0);
      var s2 := CheckBlock(arms.body, s1);
      EnterArmGoesOn(kind, arms.tag, seen, s0);
      BlockStops(arms.body, s1);
      ArmKeepsFrame(kind, arms.tag, arms.body, seen, keep, flow, st);
      ArmsStop(kind, arms.rest, seen + {arms.tag}, keep, flow, LeaveArm(kind, s2), AddPath(p, s2));
    }
  }

  lemma EnterArmGoesOn(kind: ArmKind, tag: Label, seen: set<Label>, st: State)
    requires Ready(st) && !st.terminated
    ensures var r := EnterArm(kind, tag, seen, st); Ready(r) && !r.terminated && r.loopDepths == st.loopDepths
    ensures EnterArm(kind, tag, seen, st).finallyDepth == st.finallyDepth
  {
    hide LabelFits;
  }

  lemma {:induction false} ElseStops(els: Else, keep: KeepMap, flow: FlowMap, open: bool, st: State, p: Paths)
    requires Ready(st)
    ensures var n := |CheckElse(els, keep, flow, open, st, p).1.keeps|;
            && n >= |p.keeps|
            && (n == |p.keeps| <==> if els.ElseBody? then StopsAll(els.body, Looped(st)) else !open)
    decreases els, 0
  {
    hide CheckBlock, StopsAll;
    if els.ElseBody? { BlockStops(els.body, EnterBranch(keep, flow, st)); }
  }

  lemma {:induction false} BranchesStop(s: Stmt, kind: ArmKind, open: bool, st: State)
    requires (s.If? || s.Switch?) && Ready(st)
    ensures var (s1, p1) := CheckArms(kind, s.arms, {}, st.keep, st.flow, st, Paths([], []));
            CheckElse(s.els, st.keep, st.flow, open, s1, p1).1.keeps == [] <==>
            StopsArms(s.arms, Looped(st)) && if s.els.ElseBody? then StopsAll(s.els.body, Looped(st)) else !open
    decreases s, 1
  {
    hide CheckArms, CheckElse, StopsAll, StopsArms;
    var (s1, p1) := CheckArms(kind, s.arms, {}, st.keep, st.flow, st, Paths([], []));
    ArmsGrow(kind, s.arms, {}, st.keep, st.flow, st, Paths([], []));
    ArmsStop(kind, s.arms, {}, st.keep, st.flow, st, Paths([], []));
    ElseStops(s.els, st.keep, st.flow, open, s1, p1);
  }

  lemma {:induction false} TryStops(s: Stmt, st: State)
    requires s.Try? && Ready(st)
    ensures CheckTry(s, st).terminated <==> Stops(s, Looped(st))
    decreases s, 1
  {
    hide CheckGuarded, CheckBlock, StopsAll, StopsArms;
    GuardedStops(s, st);
    GuardedGrows(s, st);
    var g := CheckGuarded(s, st);
    if s.fin.ElseBody? { BlockStops(s.fin.body, g.(terminated := false, finallyDepth := g.finallyDepth + 1)); }
  }

  lemma {:induction false} GuardedStops(s: Stmt, st: State)
    requires s.Try? && Ready(st)
    ensures CheckGuarded(s, st).terminated <==> StopsAll(s.body, Looped(st)) && StopsArms(s.handlers, Looped(st))
    decreases s, 0
  {
    hide CheckArms, CheckBlock, StopsAll, StopsArms;
    var s0 := EnterBranch(st.keep, st.flow, st);
    var s1 := CheckBlock(s.body, s0);
    BlockStops(s.body, s0);
    BlockGrows(s.body, s0);
    ArmsStop(Catches, s.handlers, {}, st.keep, st.flow, s1, AddPath(Paths([], []), s1));
  }

  // ---- Reports that name no local ----

  /** Between the two states the code is reported. */
  predicate Coded(st: State, r: State, code: Code) {
    exists i :: |st.diagnostics| <= i < |r.diagnostics| && r.diagnostics[i].code == code
  }

  predicate Closed(st: State) { st.finallyDepth > 0 }

  /** Reports that name a local. */
  predicate Naming(reports: seq<Diagnostic>) {
    forall i | 0 <= i < |reports| :: !Structural(reports[i].code)
  }

  lemma CodedSplit(a: State, b: State, c: State, code: Code)
    requires a.diagnostics <= b.diagnostics <= c.diagnostics
    ensures Coded(a, c, code) <==> Coded(a, b, code) || Coded(b, c, code)
  {
    if Coded(a, b, code) {
      var i :| |a.diagnostics| <= i < |b.diagnostics| && b.diagnostics[i].code == code;
      assert c.diagnostics[i] == b.diagnostics[i];
    }
    if Coded(b, c, code) {
      var i :| |b.diagnostics| <= i < |c.diagnostics| && c.diagnostics[i].code == code;
      assert |a.diagnostics| <= i;
    }
    if Coded(a, c, code) {
      var i :| |a.diagnostics| <= i < |c.diagnostics| && c.diagnostics[i].code == code;
      if i < |b.diagnostics| { assert b.diagnostics[i] == c.diagnostics[i]; }
    }
  }

  lemma CodedAdds(st: State, r: State, reports: seq<Diagnostic>, code: Code)
    requires r.diagnostics == st.diagnostics + reports
    ensures Coded(st, r, code) <==> exists i :: 0 <= i < |reports| && reports[i].code == code
  {
    if i :| 0 <= i < |reports| && reports[i].code == code {
      assert r.diagnostics[|st.diagnostics| + i].code == code;
    }
    if i :| |st.diagnostics| <= i < |r.diagnostics| && r.diagnostics[i].code == code {
      assert reports[i - |st.diagnostics|].code == code;
    }
  }

  lemma CodedIf(condition: bool, st: State, reported: Code, x: Id, code: Code)
    ensures Coded(st, ReportIf(condition, st, reported, x), code) <==> condition && code == reported
    ensures st.diagnostics <= ReportIf(condition, st, reported, x).diagnostics
  {
    CodedAdds(st, ReportIf(condition, st, reported, x), When(condition, reported, x), code);
    if condition { assert When(condition, reported, x)[0].code == reported; }
  }

  lemma {:induction false} KeepReportsNaming(ids: seq<Id>, keep: KeepMap)
    ensures Naming(KeepReports(ids, keep))
  {
    if |ids| > 0 { KeepReportsNaming(ButLast(ids), keep); }
  }

  lemma {:induction false} TaskReportsNaming(ids: seq<Id>, flow: FlowMap)
    ensures Naming(TaskReports(ids, flow))
  {
    if |ids| > 0 { TaskReportsNaming(ButLast(ids), flow); }
  }

  lemma {:induction false} KeepScopesNaming(scopes: seq<seq<Id>>, keep: KeepMap)
    ensures Naming(KeepScopeReports(scopes, keep))
  {
    if |scopes| > 0 {
      KeepScopesNaming(ButLast(scopes), keep);
      KeepReportsNaming(Last(scopes), keep);
    }
  }

  lemma {:induction false} TaskScopesNaming(scopes: seq<seq<Id>>, flow: FlowMap)
    ensures Naming(TaskScopeReports(scopes, flow))
  {
    if |scopes| > 0 {
      TaskScopesNaming(ButLast(scopes), flow);
      TaskReportsNaming(Last(scopes), flow);
    }
  }

  lemma KeepChecksName(st: State, first: nat, code: Code)
    requires Structural(code)
    ensures !Coded(st, CheckKeepScopesFrom(st, first), code)
    ensures st.diagnostics <= CheckKeepScopesFrom(st, first).diagnostics
  {
    hide KeepScopeReports;
    var reports := KeepScopeReports(From(st.keepScopes, first), st.keep);
    KeepScopesNaming(From(st.keepScopes, first), st.keep);
    CodedAdds(st, CheckKeepScopesFrom(st, first), reports, code);
  }

  lemma TaskChecksName(st: State, first: nat, code: Code)
    requires Structural(code)
    ensures !Coded(st, CheckTaskScopesFrom(st, first), code)
    ensures st.diagnostics <= CheckTaskScopesFrom(st, first).diagnostics
  {
    hide TaskScopeReports;
    var reports := TaskScopeReports(From(st.flowScopes, first), st.flow);
    TaskScopesNaming(From(st.flowScopes, first), st.flow);
    CodedAdds(st, CheckTaskScopesFrom(st, first), reports, code);
  }

  lemma ScopeChecksName(st: State, first: nat, code: Code)
    requires Structural(code)
    ensures !Coded(st, CheckScopesFrom(st, first), code)
    ensures st.diagnostics <= CheckScopesFrom(st, first).diagnostics
  {
    hide CheckKeepScopesFrom, CheckTaskScopesFrom, Coded;
    KeepChecksName(st, first, code);
    TaskChecksName(CheckKeepScopesFrom(st, first), first, code);
    CodedSplit(st, CheckKeepScopesFrom(st, first), CheckScopesFrom(st, first), code);
  }

  lemma SameCoded(st: State, a: State, b: State, code: Code)
    requires a.diagnostics == b.diagnostics
    ensures Coded(st, a, code) <==> Coded(st, b, code)
    ensures Coded(a, st, code) <==> Coded(b, st, code)
  {
  }

  lemma PopsName(st: State, code: Code)
    requires Structural(code)
    ensures !Coded(st, PopScopes(st), code)
    ensures st.diagnostics <= PopScopes(st).diagnostics
  {
    hide CheckKeepScopesFrom, CheckTaskScopesFrom, Coded;
    var f := PopFlowScope(st);
    PopFlowNames(st, code);
    PopKeepNames(f, code);
    CodedSplit(st, f, PopScopes(st), code);
  }

  lemma PopFlowNames(st: State, code: Code)
    requires Structural(code)
    ensures !Coded(st, PopFlowScope(st), code) && st.diagnostics <= PopFlowScope(st).diagnostics
  {
    hide CheckTaskScopesFrom;
    if |st.flowScopes| > 0 { TaskChecksName(st, |st.flowScopes| - 1, code); }
  }

  lemma PopKeepNames(st: State, code: Code)
    requires Structural(code)
    ensures !Coded(st, PopKeepScope(st), code) && st.diagnostics <= PopKeepScope(st).diagnostics
  {
    hide CheckKeepScopesFrom;
    if |st.keepScopes| > 0 { KeepChecksName(st, |st.keepScopes| - 1, code); }
  }

  // ---- Every statement ----

  function OpReports(op: Op, x: Id, st: State): seq<Diagnostic> {
    match op
    case Delete => DeleteReports(x, st)
    case Renew | SetNull | Assign => When(x in st.keep && st.keep[x] != Deleted, RawOverwrite, x)
    case Deref => ReadReports(x, st) + DerefReports(x, st)
    case Await => ReadReports(x, st) + AwaitReports(x, st)
    case Read => ReadReports(x, st)
    case _ => []
  }

  lemma OpLists(op: Op, x: Id, st: State)
    ensures var r := CheckOp(op, x, st);
            && r.breakFlows == st.breakFlows && r.breakKeeps == st.breakKeeps
            && r.diagnostics == st.diagnostics + OpReports(op, x, st)
  {
    hide DeleteReports, ReadReports, DerefReports, AwaitReports;
  }

  lemma OpReportsNaming(op: Op, x: Id, st: State)
    ensures Naming(OpReports(op, x, st))
  {
    hide DeleteReports, ReadReports, DerefReports, AwaitReports;
    DeleteNaming(x, st);
    OtherNaming(x, st);
  }

  lemma DeleteNaming(x: Id, st: State)
    ensures Naming(DeleteReports(x, st))
  {
    hide FlowOf;
  }

  lemma OtherNaming(x: Id, st: State)
    ensures Naming(ReadReports(x, st))
    ensures Naming(ReadReports(x, st) + DerefReports(x, st)) && Naming(ReadReports(x, st) + AwaitReports(x, st))
  {
    hide FlowOf;
  }

  lemma OpNames(op: Op, x: Id, st: State, code: Code)
    requires Structural(code)
    ensures !Coded(st, CheckOp(op, x, st), code)
  {
    hide OpReports, CheckOp;
    OpLists(op, x, st);
    OpReportsNaming(op, x, st);
    CodedAdds(st, CheckOp(op, x, st), OpReports(op, x, st), code);
  }

  /** A statement gets a report that names no local exactly when its text has the mistake. */
  lemma {:induction false} StmtReports(s: Stmt, st: State, code: Code)
    requires Ready(st) && !st.terminated && Structural(code)
    ensures Coded(st, Check(s, st), code) <==> Wrong(s, code, Looped(st), Closed(st))
    decreases s, 2
  {
    hide CheckIf, CheckSwitch, CheckBlock, CheckTry, CheckOp, CheckLoop, CheckLoopExit, CheckFunctionExit, EveryValue,
         Coded, WrongAll, WrongArms, WrongElse;
    match s
    case Do(op, x) => OpNames(op, x, st, code);
    case Call(_) => NothingCoded(st, code);
    case Block(body) => BlockReports(body, st, code);
    case If(_, _) => IfReports(s, st, code);
    case Switch(_, _, _, _) => SwitchReports(s, st, code);
    case While(body) => LoopReports(body, Paths([st.keep], [st.flow]), st, code);
    case DoWhile(body) => LoopReports(body, Paths([], []), st, code);
    case Try(_, _, _) => TryReports(s, st, code);
    case Throw | Return => FunctionExitReports(st, code);
    case Break | Continue => LoopExitReports(s.Break?, st, code);
  }

  lemma NothingCoded(st: State, code: Code)
    ensures !Coded(st, st, code)
  {
  }

  lemma FunctionExitReports(st: State, code: Code)
    requires Structural(code)
    ensures Coded(st, CheckFunctionExit(st), code) <==> code == FinallyControlTransfer && Closed(st)
  {
    hide Coded, CheckScopesFrom, ReportIf;
    var s := ReportIf(st.finallyDepth > 0, st, FinallyControlTransfer, NO_SYMBOL);
    CodedIf(st.finallyDepth > 0, st, FinallyControlTransfer, NO_SYMBOL, code);
    ScopeChecksName(s, 0, code);
    CodedSplit(st, s, CheckScopesFrom(s, 0), code);
    SameCoded(st, CheckScopesFrom(s, 0), CheckFunctionExit(st), code);
  }

  lemma LoopExitReports(isBreak: bool, st: State, code: Code)
    requires Ready(st) && Structural(code)
    ensures Coded(st, CheckLoopExit(isBreak, st), code) <==>
              || (code == FinallyControlTransfer && Closed(st))
              || (code == (if isBreak then BreakOutsideLoop else ContinueOutsideLoop) && !Looped(st))
  {
    hide Coded, CheckScopesFrom;
    var s := ReportIf(st.finallyDepth > 0, st, FinallyControlTransfer, NO_SYMBOL);
    CodedIf(st.finallyDepth > 0, st, FinallyControlTransfer, NO_SYMBOL, code);
    var r := CheckLoopExit(isBreak, st);
    if Looped(st) {
      ScopeChecksName(s, Last(s.loopDepths), code);
      SameCoded(s, CheckScopesFrom(s, Last(s.loopDepths)), r, code);
    } else {
      CodedIf(true, s, if isBreak then BreakOutsideLoop else ContinueOutsideLoop, NO_SYMBOL, code);
    }
    CodedSplit(st, s, r, code);
  }

  lemma {:induction false} AllReport(ss: Stmts, st: State, code: Code)
    requires Ready(st) && !st.terminated && Structural(code)
    ensures Coded(st, CheckAll(ss, st), code) <==> WrongAll(ss, code, Looped(st), Closed(st))
    decreases ss, 0
  {
    hide Check, Coded, Wrong, Stops, TopGrows;
    match ss
    case End => NothingCoded(st, code);
    case Then(s, tail) =>
      var s1 := Check(s, st);
      StmtReports(s, st, code);
      StmtStops(s, st);
      CheckGrows(s, st);
      if !s1.terminated {
        AllReport(tail, s1, code);
        AllGrows(tail, s1);
        CodedSplit(st, s1, CheckAll(tail, s1), code);
      }
  }

  lemma {:induction false} BlockReports(body: Stmts, st: State, code: Code)
    requires Ready(st) && !st.terminated && Structural(code)
    ensures Coded(st, CheckBlock(body, st), code) <==> WrongAll(body, code, Looped(st), Closed(st))
    decreases body, 1
  {
    hide CheckAll, PopScopes, Coded, WrongAll, TopGrows;
    var s0 := PushScopes(st);
    var s1 := CheckAll(body, s0);
    AllReport(body, s0, code);
    AllGrows(body, s0);
    PopsName(s1, code);
    SameCoded(s1, st, s0, code);
    CodedSplit(s0, s1, PopScopes(s1), code);
    SameCoded(PopScopes(s1), st, s0, code);
  }

  lemma {:induction false} LoopReports(body: Stmts, first: Paths, st: State, code: Code)
    requires Ready(st) && Structural(code)
    ensures Coded(st, CheckLoop(body, first, st), code) <==> WrongAll(body, code, true, Closed(st))
    decreases body, 2
  {
    hide CheckBlock, Coded, WrongAll, MergeKeepPaths, MergeFlowPaths;
    var s0 := EnterLoop(st);
    BlockReports(body, s0, code);
    SameCoded(CheckBlock(body, s0), st, s0, code);
    SameCoded(st, CheckBlock(body, s0), CheckLoop(body, first, st), code);
  }

  /** What is wrong with the labels of a switch, given those seen before. */
  ghost predicate LabelsWrong(kind: ArmKind, arms: Arms, seen: set<Label>, code: Code) {
    && kind.SwitchOn?
    && ((code == SwitchCaseType && !Fit(kind.on, arms))
        || (code == DuplicateSwitchCase && (Repeats(arms) || exists v :: v in Labels(arms) && v in seen)))
  }

  predicate LabelWrong(kind: ArmKind, tag: Label, seen: set<Label>, code: Code) {
    && kind.SwitchOn?
    && ((code == SwitchCaseType && !LabelFits(kind.on, tag)) || (code == DuplicateSwitchCase && tag in seen))
  }

  lemma LabelReports(kind: ArmKind, tag: Label, seen: set<Label>, st: State, code: Code)
    requires Structural(code)
    ensures var r := EnterArm(kind, tag, seen, st);
            st.diagnostics <= r.diagnostics && (Coded(st, r, code) <==> LabelWrong(kind, tag, seen, code))
  {
    hide Coded, LabelFits, ReportIf, Structural;
    match kind
    case IfChain => NothingCoded(st, code);
    case Catches =>
      NothingCoded(st, code);
      SameCoded(st, st, EnterArm(kind, tag, seen, st), code);
    case SwitchOn(on) =>
      var s := ReportIf(!LabelFits(on, tag), st, SwitchCaseType, NO_SYMBOL);
      CodedIf(!LabelFits(on, tag), st, SwitchCaseType, NO_SYMBOL, code);
      CodedIf(tag in seen, s, DuplicateSwitchCase, NO_SYMBOL, code);
      CodedSplit(st, s, ReportIf(tag in seen, s, DuplicateSwitchCase, NO_SYMBOL), code);
  }

  lemma LabelsSplit(kind: ArmKind, arms: Arms, seen: set<Label>, code: Code)
    requires arms.Arm?
    ensures LabelsWrong(kind, arms, seen, code) <==>
              LabelsWrong(kind, arms.rest, seen + {arms.tag}, code) || LabelWrong(kind, arms.tag, seen, code)
  {
    hide LabelFits;
    assert forall v :: v in Labels(arms) <==> v == arms.tag || v in Labels(arms.rest);
  }

  lemma {:induction false} ArmsReport(kind: ArmKind, arms: Arms, seen: set<Label>, keep: KeepMap, flow: FlowMap,
                                      st: State, p: Paths, code: Code)
    requires Ready(st) && Structural(code)
    ensures Coded(st, CheckArms(kind, arms, seen, keep, flow, st, p).0, code) <==>
              WrongArms(arms, code, Looped(st), Closed(st)) || LabelsWrong(kind, arms, seen, code)
    decreases arms, 0
  {
    hide CheckBlock, EnterArm, LeaveArm, Coded, WrongAll, LabelsWrong, TopGrows;
    match arms
    case NoArms =>
      NothingCoded(st, code);
      NoLabels(kind, seen, code);
    case Arm(tag, body, rest) =>
      var s2 := CheckBlock(body, EnterArm(kind, tag, seen, EnterBranch(keep, flow, st)));
      var s3 := LeaveArm(kind, s2);
      ArmReports(kind, tag, body, seen, keep, flow, st, code);
      ArmKeepsFrame(kind, tag, body, seen, keep, flow, st);
      ArmsReport(kind, rest, seen + {tag}, keep, flow, s3, AddPath(p, s2), code);
      ArmsGrow(kind, rest, seen + {tag}, keep, flow, s3, AddPath(p, s2));
      CodedSplit(st, s3, CheckArms(kind, rest, seen + {tag}, keep, flow, s3, AddPath(p, s2)).0, code);
      LabelsSplit(kind, arms, seen, code);
  }

  lemma NoLabels(kind: ArmKind, seen: set<Label>, code: Code)
    ensures !LabelsWrong(kind, NoArms, seen, code)
  {
  }

  lemma {:induction false} ArmReports(kind: ArmKind, tag: Label, body: Stmts, seen: set<Label>, keep: KeepMap,
                                      flow: FlowMap, st: State, code: Code)
    requires Ready(st) && Structural(code)
    ensures var s3 := LeaveArm(kind, CheckBlock(body, EnterArm(kind, tag, seen, EnterBranch(keep, flow, st))));
            && st.diagnostics <= s3.diagnostics
            && (Coded(st, s3, code) <==>
                  WrongAll(body, code, Looped(st), Closed(st)) || LabelWrong(kind, tag, seen, code))
    decreases body, 2
  {
    hide CheckBlock, EnterArm, Coded, WrongAll, TopGrows, PopScopes, LabelFits;
    var s0 := EnterBranch(keep, flow, st);
    var s1 := EnterArm(kind, tag, seen, s0);
    var s2 := CheckBlock(body, s1);
    EnterArmGoesOn(kind, tag, seen, s0);
    LabelReports(kind, tag, seen, s0, code);
    SameCoded(s1, st, s0, code);
    BlockReports(body, s1, code);
    BlockGrows(body, s1);
    CodedSplit(st, s1, s2, code);
    if kind.Catches? { PopsName(s2, code); } else { NothingCoded(s2, code); }
    CodedSplit(st, s2, LeaveArm(kind, s2), code);
  }

  lemma {:induction false} ElseReports(els: Else, keep: KeepMap, flow: FlowMap, open: bool, st: State, p: Paths,
                                       code: Code)
    requires Ready(st) && Structural(code)
    ensures Coded(st, CheckElse(els, keep, flow, open, st, p).0, code) <==>
            WrongElse(els, code, Looped(st), Closed(st))
    decreases els, 0
  {
    hide CheckBlock, Coded, WrongAll;
    match els
    case NoElse => NothingCoded(st, code);
    case ElseBody(body) =>
      var s0 := EnterBranch(keep, flow, st);
      BlockReports(body, s0, code);
      SameCoded(CheckBlock(body, s0), st, s0, code);
  }

  lemma {:induction false} BranchesReport(s: Stmt, kind: ArmKind, open: bool, st: State, code: Code)
    requires (s.If? || s.Switch?) && Ready(st) && Structural(code)
    ensures var (s1, p1) := CheckArms(kind, s.arms, {}, st.keep, st.flow, st, Paths([], []));
            var s2 := CheckElse(s.els, st.keep, st.flow, open, s1, p1).0;
            && st.diagnostics <= s2.diagnostics
            && (Coded(st, s2, code) <==>
                  || WrongArms(s.arms, code, Looped(st), Closed(st)) || LabelsWrong(kind, s.arms, {}, code)
                  || WrongElse(s.els, code, Looped(st), Closed(st)))
    decreases s, 0
  {
    hide CheckArms, CheckElse, Coded, WrongArms, WrongElse, LabelsWrong, TopGrows;
    var (s1, p1) := CheckArms(kind, s.arms, {}, st.keep, st.flow, st, Paths([], []));
    ArmsReport(kind, s.arms, {}, st.keep, st.flow, st, Paths([], []), code);
    ArmsGrow(kind, s.arms, {}, st.keep, st.flow, st, Paths([], []));
    ElseReports(s.els, st.keep, st.flow, open, s1, p1, code);
    ElseGrows(s.els, st.keep, st.flow, open, s1, p1);
    CodedSplit(st, s1, CheckElse(s.els, st.keep, st.flow, open, s1, p1).0, code);
  }

  lemma {:induction false} IfReports(s: Stmt, st: State, code: Code)
    requires s.If? && Ready(st) && Structural(code)
    ensures Coded(st, CheckIf(s, st), code) <==> Wrong(s, code, Looped(st), Closed(st))
    decreases s, 1
  {
    hide CheckArms, CheckElse, Coded, WrongArms, WrongElse, MergeKeepPaths, MergeFlowPaths;
    BranchesReport(s, IfChain, true, st, code);
    var (s1, p1) := CheckArms(IfChain, s.arms, {}, st.keep, st.flow, st, Paths([], []));
    SameCoded(st, CheckElse(s.els, st.keep, st.flow, true, s1, p1).0, CheckIf(s, st), code);
  }

  lemma {:induction false} SwitchReports(s: Stmt, st: State, code: Code)
    requires s.Switch? && Ready(st) && Structural(code)
    ensures Coded(st, CheckSwitch(s, st), code) <==> Wrong(s, code, Looped(st), Closed(st))
    decreases s, 1
  {
    hide CheckArms, CheckElse, Coded, Wrong, WrongArms, WrongElse, Covers, EveryValue, Fit, Structural, CheckSwitch,
         LabelsWrong, Ready, ReportIf;
    WrongSwitch(s, code, Looped(st), Closed(st));
    var all := s.els.ElseBody? || Covers(s.on, Labels(s.arms));
    CoversIs(s.on, s.arms);
    BranchesReport(s, SwitchOn(s.on), !all, st, code);
    var (s1, p1) := CheckArms(SwitchOn(s.on), s.arms, {}, st.keep, st.flow, st, Paths([], []));
    var s2 := CheckElse(s.els, st.keep, st.flow, !all, s1, p1).0;
    MatchReported(s.exhaustive && !all, st, s2, code);
    SwitchLists(s, st);
    SameCoded(st, ReportIf(s.exhaustive && !all, s2, NonExhaustiveMatch, NO_SYMBOL), CheckSwitch(s, st), code);
    NoneSeen(s.on, s.arms, code);
  }

  lemma WrongSwitch(s: Stmt, code: Code, looped: bool, closed: bool)
    requires s.Switch?
    ensures Wrong(s, code, looped, closed) <==>
              || WrongArms(s.arms, code, looped, closed) || WrongElse(s.els, code, looped, closed)
              || (code == SwitchCaseType && !Fit(s.on, s.arms)) || (code == DuplicateSwitchCase && Repeats(s.arms))
              || (code == NonExhaustiveMatch && s.exhaustive && s.els.NoElse? && !EveryValue(s.on, s.arms))
  {
    hide WrongArms, WrongElse, Fit, Repeats, EveryValue;
  }

  lemma NoneSeen(on: Selector, arms: Arms, code: Code)
    ensures LabelsWrong(SwitchOn(on), arms, {}, code) <==>
              (code == SwitchCaseType && !Fit(on, arms)) || (code == DuplicateSwitchCase && Repeats(arms))
  {
    hide Fit, Repeats;
  }

  lemma MatchReported(condition: bool, st: State, s2: State, code: Code)
    requires st.diagnostics <= s2.diagnostics
    ensures Coded(st, ReportIf(condition, s2, NonExhaustiveMatch, NO_SYMBOL), code) <==>
              Coded(st, s2, code) || (condition && code == NonExhaustiveMatch)
  {
    hide Coded, ReportIf;
    CodedIf(condition, s2, NonExhaustiveMatch, NO_SYMBOL, code);
    CodedSplit(st, s2, ReportIf(condition, s2, NonExhaustiveMatch, NO_SYMBOL), code);
  }

  lemma SwitchLists(s: Stmt, st: State)
    requires s.Switch?
    ensures var all := s.els.ElseBody? || Covers(s.on, Labels(s.arms));
            var (s1, p1) := CheckArms(SwitchOn(s.on), s.arms, {}, st.keep, st.flow, st, Paths([], []));
            var s2 := CheckElse(s.els, st.keep, st.flow, !all, s1, p1).0;
            CheckSwitch(s, st).diagnostics ==
            ReportIf(s.exhaustive && !all, s2, NonExhaustiveMatch, NO_SYMBOL).diagnostics
  {
    hide CheckArms, CheckElse, Covers, MergeKeepPaths, MergeFlowPaths;
  }

  lemma {:induction false} TryReports(s: Stmt, st: State, code: Code)
    requires s.Try? && Ready(st) && !st.terminated && Structural(code)
    ensures Coded(st, CheckTry(s, st), code) <==> Wrong(s, code, Looped(st), Closed(st))
    decreases s, 1
  {
    hide CheckGuarded, CheckFinally, Coded, Wrong, WrongAll, WrongArms, WrongElse, TopGrows, Structural;
    var g := CheckGuarded(s, st);
    WrongTry(s, code, Looped(st), Closed(st));
    GuardedReports(s, st, code);
    GuardedGrows(s, st);
    FinallyReports(s.fin, g, code);
    FinallyGrows(s.fin, g);
    CodedSplit(st, g, CheckFinally(s.fin, g), code);
  }

  lemma WrongTry(s: Stmt, code: Code, looped: bool, closed: bool)
    requires s.Try?
    ensures Wrong(s, code, looped, closed) <==>
              || WrongAll(s.body, code, looped, closed) || WrongArms(s.handlers, code, looped, closed)
              || WrongElse(s.fin, code, looped, true)
  {
    hide WrongAll, WrongArms, WrongElse;
  }

  lemma {:induction false} FinallyReports(fin: Else, st: State, code: Code)
    requires Ready(st) && Structural(code)
    ensures Coded(st, CheckFinally(fin, st), code) <==> WrongElse(fin, code, Looped(st), true)
    decreases fin, 0
  {
    hide CheckBlock, Coded, WrongAll, Structural;
    match fin
    case NoElse => NothingCoded(st, code);
    case ElseBody(body) =>
      var s0 := st.(terminated := false, finallyDepth := st.finallyDepth + 1);
      BlockReports(body, s0, code);
      SameCoded(CheckBlock(body, s0), st, s0, code);
      SameCoded(st, CheckBlock(body, s0), CheckFinally(fin, st), code);
  }

  lemma {:induction false} GuardedReports(s: Stmt, st: State, code: Code)
    requires s.Try? && Ready(st) && Structural(code)
    ensures Coded(st, CheckGuarded(s, st), code) <==>
              WrongAll(s.body, code, Looped(st), Closed(st)) || WrongArms(s.handlers, code, Looped(st), Closed(st))
    decreases s, 0
  {
    hide CheckArms, CheckBlock, Coded, WrongAll, WrongArms, MergeKeepPaths, MergeFlowPaths, TopGrows;
    var s0 := EnterBranch(st.keep, st.flow, st);
    var s1 := CheckBlock(s.body, s0);
    var p := AddPath(Paths([], []), s1);
    BlockReports(s.body, s0, code);
    BlockGrows(s.body, s0);
    SameCoded(s1, st, s0, code);
    ArmsReport(Catches, s.handlers, {}, st.keep, st.flow, s1, p, code);
    ArmsGrow(Catches, s.handlers, {}, st.keep, st.flow, s1, p);
    var s2 := CheckArms(Catches, s.handlers, {}, st.keep, st.flow, s1, p).0;
    CodedSplit(st, s1, s2, code);
    SameCoded(st, s2, CheckGuarded(s, st), code);
  }

  // ---- Whole functions ----

  /** A report that names no local is made exactly when the text has the mistake; and a return is
      missed exactly when a result is due and the text does not stop. */
  lemma FunctionReports(body: Stmts, returnsValue: bool, code: Code)
    requires Structural(code)
    ensures (exists d :: d in CheckFunction(body, returnsValue).diagnostics && d.code == code) <==>
              || WrongAll(body, code, false, false)
              || (code == MissingReturn && returnsValue && !StopsAll(body, false))
  {
    hide CheckBlock, PopScopes, Coded, WrongAll, StopsAll, TopGrows;
    var s1 := CheckBlock(body, START);
    BlockReports(body, START, code);
    BlockStops(body, START);
    BlockGrows(body, START);
    var s2 := ReportIf(returnsValue && !s1.terminated, s1, MissingReturn, NO_SYMBOL);
    CodedIf(returnsValue && !s1.terminated, s1, MissingReturn, NO_SYMBOL, code);
    PopsName(s2, code);
    CodedSplit(START, s1, s2, code);
    CodedSplit(START, s2, PopScopes(s2), code);
    CodedInList(PopScopes(s2), code);
  }

  lemma CodedInList(r: State, code: Code)
    ensures Coded(START, r, code) <==> exists d :: d in r.diagnostics && d.code == code
  {
    if Coded(START, r, code) {
      var i :| 0 <= i < |r.diagnostics| && r.diagnostics[i].code == code;
      assert r.diagnostics[i] in r.diagnostics;
    }
    if d :| d in r.diagnostics && d.code == code {
      var i :| 0 <= i < |r.diagnostics| && r.diagnostics[i] == d;
      assert r.diagnostics[i].code == code;
    }
  }

  /** An exhaustive match without a default, whose labels fit and differ and whose cases are
      in order, is in order exactly when every value has a case. */
  lemma MatchReports(s: Stmt, st: State)
    requires s.Switch? && s.exhaustive && s.els.NoElse? && Ready(st) && !st.terminated
    requires Fit(s.on, s.arms) && !Repeats(s.arms)
    requires forall code | Structural(code) :: !WrongArms(s.arms, code, Looped(st), Closed(st))
    ensures (forall code | Structural(code) :: !Coded(st, Check(s, st), code)) <==> EveryValue(s.on, s.arms)
  {
    hide Check, Coded, EveryValue, Fit, Repeats, WrongArms;
    forall code | Structural(code)
      ensures Coded(st, Check(s, st), code) <==> code == NonExhaustiveMatch && !EveryValue(s.on, s.arms)
    {
      StmtReports(s, st, code);
    }
    assert Structural(NonExhaustiveMatch);
  }
}
