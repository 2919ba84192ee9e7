/** The checker as the compiler runs it: an object whose visitors save, overwrite, restore
    and merge its two tables in place.  Every method is proved to compute the function of
    FlowState or FlowChecker of the same name, for which the theorems are stated. */
module FlowAnalyzer {
  import opened FlowSyntax
  import F = FlowState
  import C = FlowChecker
  import FlowFrame

  // ---- The reports of a scope check, one at a time ----

  lemma NothingKeeps(keep: F.KeepMap)
    ensures F.KeepReports([], keep) == [] && F.KeepScopeReports([], keep) == []
  {
  }

  lemma NothingTasks(flow: F.FlowMap)
    ensures F.TaskReports([], flow) == [] && F.TaskScopeReports([], flow) == []
  {
  }

  lemma KeepReportsNext(ids: seq<Id>, i: nat, keep: F.KeepMap)
    requires i < |ids|
    ensures F.KeepReports(ids[..i + 1], keep) ==
            F.KeepReports(ids[..i], keep) +
            if ids[i] in keep && keep[ids[i]] != F.Deleted then [F.Diagnostic(F.RawDeleteRequired, ids[i])] else []
  {
    assert F.ButLast(ids[..i + 1]) == ids[..i];
  }

  lemma TaskReportsNext(ids: seq<Id>, i: nat, flow: F.FlowMap)
    requires i < |ids|
    ensures F.TaskReports(ids[..i + 1], flow) == F.TaskReports(ids[..i], flow) + F.TaskReport(ids[i], flow)
  {
    assert F.ButLast(ids[..i + 1]) == ids[..i];
  }

  lemma KeepScopesNext(scopes: seq<seq<Id>>, i: nat, keep: F.KeepMap)
    requires i < |scopes|
    ensures F.KeepScopeReports(scopes[..i + 1], keep) ==
            F.KeepScopeReports(scopes[..i], keep) + F.KeepReports(scopes[i], keep)
  {
    assert F.ButLast(scopes[..i + 1]) == scopes[..i];
  }

  lemma TaskScopesNext(scopes: seq<seq<Id>>, i: nat, flow: F.FlowMap)
    requires i < |scopes|
    ensures F.TaskScopeReports(scopes[..i + 1], flow) ==
            F.TaskScopeReports(scopes[..i], flow) + F.TaskReports(scopes[i], flow)
  {
    assert F.ButLast(scopes[..i + 1]) == scopes[..i];
  }

  /** One branch of the walk over a list of branches. */
  lemma ArmsNext(kind: C.ArmKind, arms: Arms, seen: set<Label>, keep: F.KeepMap, flow: F.FlowMap, st: F.State,
                 p: C.Paths)
    ensures arms.NoArms? ==> C.CheckArms(kind, arms, seen, keep, flow, st, p) == (st, p)
    ensures arms.Arm? ==>
              var s := C.CheckBlock(arms.body, C.EnterArm(kind, arms.tag, seen, C.EnterBranch(keep, flow, st)));
              C.CheckArms(kind, arms, seen, keep, flow, st, p) ==
              C.CheckArms(kind, arms.rest, seen + {arms.tag}, keep, flow, C.LeaveArm(kind, s), C.AddPath(p, s))
  {
    hide C.CheckBlock, C.EnterArm, C.LeaveArm;
  }

  class Analyzer {
    var keepLifetimes: F.KeepMap
    var valueFlow: F.FlowMap
    var keepScopes: seq<seq<Id>>
    var valueFlowScopes: seq<seq<Id>>
    var loopKeepDepths: seq<nat>
    var loopBreakStates: seq<seq<F.KeepMap>>
    var loopBreakValueStates: seq<seq<F.FlowMap>>
    var flowTerminated: bool
    var finallyDepth: nat
    var diagnostics: seq<F.Diagnostic>

    ghost function View(): F.State
      reads this
    {
      F.State(keepLifetimes, valueFlow, keepScopes, valueFlowScopes, loopKeepDepths, loopBreakStates,
              loopBreakValueStates, flowTerminated, finallyDepth, diagnostics)
    }

    /** The two scope stacks are equally high, and so are the loop stacks. */
    ghost predicate Valid()
      reads this
    {
      FlowFrame.Ready(View())
    }

    constructor ()
      ensures Valid() && View() == C.START
    {
      keepLifetimes, valueFlow := map[], map[];
      keepScopes, valueFlowScopes := [[]], [[]];
      loopKeepDepths, loopBreakStates, loopBreakValueStates := [], [], [];
      flowTerminated, finallyDepth, diagnostics := false, 0, [];
    }

    method Report(code: F.Code, x: Id)
      modifies this`diagnostics
      ensures View() == F.Report(old(View()), code, x)
    {
      diagnostics := diagnostics + [F.Diagnostic(code, x)];
    }

    // ---- Scopes ----

    method CheckKeepScopesFrom(firstScope: nat)
      modifies this`diagnostics
      ensures View() == F.CheckKeepScopesFrom(old(View()), firstScope)
    {
      hide F.KeepReports, F.KeepScopeReports;
      NothingKeeps(keepLifetimes);
      var scope := firstScope;
      ghost var scopes := F.From(keepScopes, firstScope);
      while scope < |keepScopes|
        invariant firstScope <= scope && (scope <= |keepScopes| || scope == firstScope)
        invariant scope <= |keepScopes| ==>
                    diagnostics == old(diagnostics) + F.KeepScopeReports(scopes[..scope - firstScope], keepLifetimes)
        invariant scope > |keepScopes| ==> diagnostics == old(diagnostics)
      {
        var ids := keepScopes[scope];
        ghost var before := diagnostics;
        var i := 0;
        while i < |ids|
          invariant 0 <= i <= |ids|
          invariant diagnostics == before + F.KeepReports(ids[..i], keepLifetimes)
        {
          KeepReportsNext(ids, i, keepLifetimes);
          if ids[i] in keepLifetimes && keepLifetimes[ids[i]] != F.Deleted {
            Report(F.RawDeleteRequired, ids[i]);
          }
          i := i + 1;
        }
        assert ids[..|ids|] == ids;
        KeepScopesNext(scopes, scope - firstScope, keepLifetimes);
        scope := scope + 1;
      }
      assert firstScope <= |keepScopes| ==> scopes[..|scopes|] == scopes;
    }

    method CheckTaskScopesFrom(firstScope: nat)
      modifies this`diagnostics
      ensures View() == F.CheckTaskScopesFrom(old(View()), firstScope)
    {
      hide F.TaskReports, F.TaskScopeReports;
      NothingTasks(valueFlow);
      var scope := firstScope;
      ghost var scopes := F.From(valueFlowScopes, firstScope);
      while scope < |valueFlowScopes|
        invariant firstScope <= scope && (scope <= |valueFlowScopes| || scope == firstScope)
        invariant scope <= |valueFlowScopes| ==>
                    diagnostics == old(diagnostics) + F.TaskScopeReports(scopes[..scope - firstScope], valueFlow)
        invariant scope > |valueFlowScopes| ==> diagnostics == old(diagnostics)
      {
        var ids := valueFlowScopes[scope];
        ghost var before := diagnostics;
        var i := 0;
        while i < |ids|
          invariant 0 <= i <= |ids|
          invariant diagnostics == before + F.TaskReports(ids[..i], valueFlow)
        {
          TaskReportsNext(ids, i, valueFlow);
          if ids[i] in valueFlow {
            if valueFlow[ids[i]].task == F.Pending { Report(F.TaskNotAwaited, ids[i]); }
            else if valueFlow[ids[i]].task == F.MaybePending { Report(F.TaskMayNotBeAwaited, ids[i]); }
          }
          i := i + 1;
        }
        assert ids[..|ids|] == ids;
        TaskScopesNext(scopes, scope - firstScope, valueFlow);
        scope := scope + 1;
      }
      assert firstScope <= |valueFlowScopes| ==> scopes[..|scopes|] == scopes;
    }

    method PushKeepScope()
      modifies this`keepScopes
      ensures keepScopes == old(keepScopes) + [[]]
    {
      keepScopes := keepScopes + [[]];
    }

    method PushValueFlowScope()
      modifies this`valueFlowScopes
      ensures valueFlowScopes == old(valueFlowScopes) + [[]]
    {
      valueFlowScopes := valueFlowScopes + [[]];
    }

    method EraseKeep(ids: seq<Id>)
      modifies this`keepLifetimes
      ensures keepLifetimes == old(keepLifetimes) - F.IdsOf(ids)
    {
      var i := 0;
      while i < |ids|
        invariant 0 <= i <= |ids|
        invariant keepLifetimes == old(keepLifetimes) - F.IdsOf(ids[..i])
      {
        keepLifetimes := keepLifetimes - {ids[i]};
        assert F.IdsOf(ids[..i + 1]) == F.IdsOf(ids[..i]) + {ids[i]};
        i := i + 1;
      }
      assert ids[..|ids|] == ids;
    }

    method PopKeepScope()
      modifies this
      ensures View() == F.PopKeepScope(old(View()))
    {
      hide F.KeepScopeReports;
      if |keepScopes| == 0 { return; }
      if !flowTerminated { CheckKeepScopesFrom(|keepScopes| - 1); }
      EraseKeep(keepScopes[|keepScopes| - 1]);
      keepScopes := keepScopes[..|keepScopes| - 1];
    }

    method EraseFlow(ids: seq<Id>)
      modifies this`valueFlow
      ensures valueFlow == old(valueFlow) - F.IdsOf(ids)
    {
      var i := 0;
      while i < |ids|
        invariant 0 <= i <= |ids|
        invariant valueFlow == old(valueFlow) - F.IdsOf(ids[..i])
      {
        valueFlow := valueFlow - {ids[i]};
        assert F.IdsOf(ids[..i + 1]) == F.IdsOf(ids[..i]) + {ids[i]};
        i := i + 1;
      }
      assert ids[..|ids|] == ids;
    }

    method PopValueFlowScope()
      modifies this
      ensures View() == F.PopFlowScope(old(View()))
    {
      hide F.TaskScopeReports;
      if |valueFlowScopes| == 0 { return; }
      if !flowTerminated { CheckTaskScopesFrom(|valueFlowScopes| - 1); }
      EraseFlow(valueFlowScopes[|valueFlowScopes| - 1]);
      valueFlowScopes := valueFlowScopes[..|valueFlowScopes| - 1];
    }

    method RegisterFlowSymbol(id: Id, state: F.Flow)
      modifies this`valueFlow, this`valueFlowScopes
      ensures View() == F.RegisterFlow(old(View()), id, state)
    {
      if |valueFlowScopes| == 0 { PushValueFlowScope(); }
      valueFlow := valueFlow[id := state];
      var last := |valueFlowScopes| - 1;
      valueFlowScopes := valueFlowScopes[..last] + [valueFlowScopes[last] + [id]];
    }

    method RegisterKeep(id: Id)
      modifies this`keepLifetimes, this`keepScopes
      ensures View() == F.RegisterKeep(old(View()), id)
    {
      if |keepScopes| == 0 { PushKeepScope(); }
      keepLifetimes := keepLifetimes[id := F.Live];
      var last := |keepScopes| - 1;
      keepScopes := keepScopes[..last] + [keepScopes[last] + [id]];
    }

    // ---- Merging ----

    /** The states of one owner on all paths. */
    static method MergeKeepAt(id: Id, base: F.Keep, paths: seq<F.KeepMap>) returns (merged: F.Keep)
      requires |paths| > 0
      ensures merged == F.JoinKeep(id, base, paths)
    {
      merged := if id in paths[0] then paths[0][id] else base;
      var index := 1;
      while index < |paths|
        invariant 1 <= index <= |paths|
        invariant merged == F.JoinKeep(id, base, paths[..index])
      {
        assert F.ButLast(paths[..index + 1]) == paths[..index];
        var state := if id in paths[index] then paths[index][id] else base;
        if state != merged { merged := F.MaybeDeleted; }
        index := index + 1;
      }
      assert paths[..|paths|] == paths;
    }

    method MergeKeepPaths(base: F.KeepMap, paths: seq<F.KeepMap>)
      modifies this`keepLifetimes
      ensures View() == old(View()).(keep := F.MergeKeepPaths(base, paths))
    {
      hide F.JoinKeep;
      keepLifetimes := base;
      if |paths| == 0 { return; }
      var todo := base.Keys;
      while todo != {}
        invariant todo <= base.Keys == keepLifetimes.Keys
        invariant forall id | id in base ::
                    keepLifetimes[id] == if id in todo then base[id] else F.JoinKeep(id, base[id], paths)
        decreases |todo|
      {
        var id :| id in todo;
        var merged := MergeKeepAt(id, base[id], paths);
        keepLifetimes := keepLifetimes[id := merged];
        todo := todo - {id};
      }
      assert keepLifetimes == F.MergeKeepPaths(base, paths);
    }

    static method MergeFlowStates(a: F.Flow, next: F.Flow) returns (state: F.Flow)
      ensures state == F.MergeFlow(a, next)
    {
      state := a;
      if state.init != next.init { state := state.(init := F.MaybeUninitialized); }
      if state.validity != next.validity {
        var stateInvalid := state.validity in {F.Null, F.DeletedPointer, F.Expired, F.MaybeInvalid};
        var nextInvalid := next.validity in {F.Null, F.DeletedPointer, F.Expired, F.MaybeInvalid};
        var dangerousState := state.validity in {F.DeletedPointer, F.Expired, F.MaybeInvalid};
        var dangerousNext := next.validity in {F.DeletedPointer, F.Expired, F.MaybeInvalid};
        var nullablePair := state.validity in {F.Null, F.LivePointer, F.MaybeNull}
            && next.validity in {F.Null, F.LivePointer, F.MaybeNull};
        if dangerousState || dangerousNext { state := state.(validity := F.MaybeInvalid); }
        else if nullablePair { state := state.(validity := F.MaybeNull); }
        else { state := state.(validity := if stateInvalid || nextInvalid then F.MaybeInvalid else F.Unknown); }
      }
      if state.task != next.task {
        var pending := state.task in {F.Pending, F.MaybePending} || next.task in {F.Pending, F.MaybePending};
        state := state.(task := if pending then F.MaybePending else F.UnknownTask);
      }
    }

    static method MergeValueFlowAt(id: Id, base: F.Flow, paths: seq<F.FlowMap>) returns (state: F.Flow)
      requires |paths| > 0
      ensures state == F.JoinFlow(id, base, paths)
    {
      hide F.MergeFlow;
      state := if id in paths[0] then paths[0][id] else base;
      var index := 1;
      while index < |paths|
        invariant 1 <= index <= |paths|
        invariant state == F.JoinFlow(id, base, paths[..index])
      {
        assert F.ButLast(paths[..index + 1]) == paths[..index];
        state := MergeFlowStates(state, if id in paths[index] then paths[index][id] else base);
        index := index + 1;
      }
      assert paths[..|paths|] == paths;
    }

    method MergeValueFlowPaths(base: F.FlowMap, paths: seq<F.FlowMap>)
      modifies this`valueFlow
      ensures View() == old(View()).(flow := F.MergeFlowPaths(base, paths))
    {
      hide F.JoinFlow;
      valueFlow := base;
      if |paths| == 0 { return; }
      var todo := base.Keys;
      while todo != {}
        invariant todo <= base.Keys == valueFlow.Keys
        invariant forall id | id in base ::
                    valueFlow[id] == if id in todo then base[id] else F.JoinFlow(id, base[id], paths)
        decreases |todo|
      {
        var id :| id in todo;
        var state := MergeValueFlowAt(id, base[id], paths);
        valueFlow := valueFlow[id := state];
        todo := todo - {id};
      }
      assert valueFlow == F.MergeFlowPaths(base, paths);
    }

    // ---- Operations ----

    method ReportReads(x: Id)
      modifies this`diagnostics
      ensures View() == C.Reports(old(View()), C.ReadReports(x, old(View())))
    {
      if x in valueFlow {
        if valueFlow[x].init == F.Uninitialized { Report(F.UninitializedRead, x); }
        else if valueFlow[x].init == F.MaybeUninitialized { Report(F.MaybeUninitializedRead, x); }
      }
    }

    method Dereference(x: Id)
      modifies this`diagnostics
      ensures View() == C.CheckOp(Deref, x, old(View()))
    {
      ReportReads(x);
      if x in valueFlow {
        match valueFlow[x].validity
        case Null => Report(F.NullDereference, x);
        case MaybeNull => Report(F.MaybeNullDereference, x);
        case DeletedPointer => Report(F.UseAfterDelete, x);
        case Expired => Report(F.ExpiredDereference, x);
        case MaybeInvalid => Report(F.MaybeInvalidDereference, x);
        case _ =>
      }
    }

    method ReportWhen(condition: bool, code: F.Code, x: Id)
      modifies this`diagnostics
      ensures diagnostics == old(diagnostics) + C.When(condition, code, x)
    {
      if condition { Report(code, x); }
    }

    method ReportDelete(x: Id)
      modifies this`diagnostics
      ensures View() == C.Reports(old(View()), C.DeleteReports(x, old(View())))
    {
      hide C.When;
      var f := if x in valueFlow then valueFlow[x] else C.NO_FLOW;
      ReportWhen(f.init == F.Uninitialized, F.DeleteUninitialized, x);
      ReportWhen(f.init == F.MaybeUninitialized, F.DeleteMaybeUninitialized, x);
      ReportWhen(f.validity == F.DeletedPointer && x !in keepLifetimes, F.DoubleDelete, x);
      ReportWhen(f.validity == F.Expired, F.DeleteExpired, x);
      ReportWhen(f.validity == F.MaybeInvalid, F.DeleteMaybeInvalid, x);
      ReportWhen(x in keepLifetimes && keepLifetimes[x] == F.Deleted, F.RawDoubleDelete, x);
      Regroup(old(diagnostics),
              C.When(f.init == F.Uninitialized, F.DeleteUninitialized, x),
              C.When(f.init == F.MaybeUninitialized, F.DeleteMaybeUninitialized, x),
              C.When(f.validity == F.DeletedPointer && x !in keepLifetimes, F.DoubleDelete, x),
              C.When(f.validity == F.Expired, F.DeleteExpired, x),
              C.When(f.validity == F.MaybeInvalid, F.DeleteMaybeInvalid, x),
              C.When(x in keepLifetimes && keepLifetimes[x] == F.Deleted, F.RawDoubleDelete, x));
    }

    static lemma Regroup(d: seq<F.Diagnostic>, p: seq<F.Diagnostic>, q: seq<F.Diagnostic>, r: seq<F.Diagnostic>,
                         s: seq<F.Diagnostic>, t: seq<F.Diagnostic>, u: seq<F.Diagnostic>)
      ensures d + p + q + r + s + t + u == d + (p + q + r + s + t + u)
    {
    }

    method DeleteValue(x: Id)
      modifies this`diagnostics, this`keepLifetimes, this`valueFlow
      ensures View() == C.CheckDelete(x, old(View()))
    {
      ReportDelete(x);
      if x in valueFlow {
        var f := valueFlow[x];
        valueFlow := valueFlow[x := F.Flow(F.Initialized, if f.validity == F.Null then F.Null else F.DeletedPointer,
                                           f.task)];
      }
      if x in keepLifetimes { keepLifetimes := keepLifetimes[x := F.Deleted]; }
    }

    method AssignValue(x: Id, createsRawOwner: bool, validity: F.Validity)
      modifies this`diagnostics, this`keepLifetimes, this`valueFlow
      ensures View() == C.CheckAssign(x, createsRawOwner, validity, old(View()))
    {
      if x in keepLifetimes {
        if keepLifetimes[x] != F.Deleted { Report(F.RawOverwrite, x); }
        keepLifetimes := keepLifetimes[x := if createsRawOwner then F.Live else F.Deleted];
      }
      if x in valueFlow {
        valueFlow := valueFlow[x := F.Flow(F.Initialized, validity, F.NotTask)];
      }
    }

    method AwaitTask(x: Id)
      modifies this`diagnostics, this`valueFlow
      ensures View() == C.CheckAwait(x, old(View()))
    {
      ReportReads(x);
      if x in valueFlow {
        if valueFlow[x].task == F.Awaited { Report(F.TaskDoubleAwait, x); }
        else if valueFlow[x].task == F.MaybePending { Report(F.TaskMaybeDoubleAwait, x); }
        valueFlow := valueFlow[x := valueFlow[x].(task := F.Awaited)];
      }
    }

    method VisitOp(op: Op, x: Id)
      modifies this
      ensures View() == C.CheckOp(op, x, old(View()))
    {
      match op
      case NewRaw =>
        RegisterFlowSymbol(x, C.FRESH_RAW);
        RegisterKeep(x);
      case Delete => DeleteValue(x);
      case Renew => AssignValue(x, true, F.LivePointer);
      case SetNull => AssignValue(x, false, F.Null);
      case Deref => Dereference(x);
      case Spawn => RegisterFlowSymbol(x, C.FRESH_TASK);
      case Await => AwaitTask(x);
      case Declare => RegisterFlowSymbol(x, C.FRESH_LOCAL);
      case Assign => AssignValue(x, false, F.NotPointer);
      case Read => ReportReads(x);
    }

    // ---- Statements ----

    method VisitLoopExit(isBreak: bool)
      requires Valid()
      modifies this
      ensures View() == C.CheckLoopExit(isBreak, old(View()))
    {
      hide F.KeepScopeReports, F.TaskScopeReports, F.From;
      if finallyDepth > 0 { Report(F.FinallyControlTransfer, F.NO_SYMBOL); }
      if |loopKeepDepths| == 0 {
        Report(if isBreak then F.BreakOutsideLoop else F.ContinueOutsideLoop, F.NO_SYMBOL);
      } else {
        var last := |loopKeepDepths| - 1;
        CheckKeepScopesFrom(loopKeepDepths[last]);
        CheckTaskScopesFrom(loopKeepDepths[last]);
        if isBreak {
          loopBreakStates := loopBreakStates[..last] + [loopBreakStates[last] + [keepLifetimes]];
        }
        loopBreakValueStates := loopBreakValueStates[..last] + [loopBreakValueStates[last] + [valueFlow]];
        flowTerminated := true;
      }
    }

    /** `return` and `throw`. */
    method VisitFunctionExit()
      modifies this
      ensures View() == C.CheckFunctionExit(old(View()))
    {
      if finallyDepth > 0 { Report(F.FinallyControlTransfer, F.NO_SYMBOL); }
      CheckKeepScopesFrom(0);
      CheckTaskScopesFrom(0);
      flowTerminated := true;
    }

    method Visit(s: Stmt)
      requires Valid()
      modifies this
      ensures Valid() && View() == C.Check(s, old(View()))
      decreases s, 2
    {
      hide C.CheckBlock, C.CheckIf, C.CheckSwitch, C.CheckLoop, C.CheckTry, C.CheckOp, C.CheckLoopExit,
           C.CheckFunctionExit;
      FlowFrame.CheckGrows(s, View());
      match s
      case Do(op, x) => VisitOp(op, x);
      case Call(_) =>
      case Block(body) => VisitCompound(body);
      case If(_, _) => VisitIf(s);
      case Switch(_, _, _, _) => VisitSwitch(s);
      case While(body) => VisitLoop(body, [keepLifetimes], [valueFlow]);
      case DoWhile(body) => VisitLoop(body, [], []);
      case Try(_, _, _) => VisitTry(s);
      case Throw => VisitFunctionExit();
      case Break => VisitLoopExit(true);
      case Continue => VisitLoopExit(false);
      case Return => VisitFunctionExit();
    }

    method VisitCompound(statements: Stmts)
      requires Valid()
      modifies this
      ensures Valid() && View() == C.CheckBlock(statements, old(View()))
      decreases statements, 0
    {
      hide C.Check, F.PopFlowScope, F.PopKeepScope;
      FlowFrame.BlockGrows(statements, View());
      PushKeepScope();
      PushValueFlowScope();
      ghost var start := View();
      var rest := statements;
      while rest.Then?
        invariant Valid() && (rest == statements || rest < statements)
        invariant C.CheckAll(rest, View()) == C.CheckAll(statements, start)
        decreases rest
      {
        ghost var here := View();
        Visit(rest.head);
        if flowTerminated {
          assert C.CheckAll(rest, here) == View();
          break;
        }
        rest := rest.tail;
      }
      assert View() == C.CheckAll(statements, start);
      PopValueFlowScope();
      PopKeepScope();
    }

    /** A branch starts from the tables before the statement. */
    method VisitBranch(body: Stmts, base: F.KeepMap, baseValues: F.FlowMap)
      requires Valid()
      modifies this
      ensures Valid() && View() == C.CheckBlock(body, C.EnterBranch(base, baseValues, old(View())))
      decreases body, 1
    {
      hide C.CheckBlock;
      keepLifetimes, valueFlow, flowTerminated := base, baseValues, false;
      FlowFrame.BlockGrows(body, View());
      VisitCompound(body);
    }

    /** After the branches: the paths that continue are merged. */
    method Rejoin(base: F.KeepMap, baseValues: F.FlowMap, paths: seq<F.KeepMap>, valuePaths: seq<F.FlowMap>,
                  terminated: bool)
      modifies this
      ensures View() == C.Rejoin(base, baseValues, C.Paths(paths, valuePaths), terminated, old(View()))
    {
      hide F.MergeKeepPaths, F.MergeFlowPaths;
      MergeKeepPaths(base, paths);
      MergeValueFlowPaths(baseValues, valuePaths);
      flowTerminated := terminated;
    }

    method VisitIf(s: Stmt)
      requires s.If? && Valid()
      modifies this
      ensures Valid() && View() == C.CheckIf(s, old(View()))
      decreases s, 0
    {
      hide C.CheckBlock, C.Rejoin, C.EnterBranch;
      FlowFrame.IfGrows(s, View());
      var base, baseValues := keepLifetimes, valueFlow;
      var continuingPaths: seq<F.KeepMap>, continuingValuePaths: seq<F.FlowMap> := [], [];
      var branches := s.arms;
      ghost var seen: set<Label> := {};
      while branches.Arm?
        invariant Valid() && (branches == s.arms || branches < s.arms)
        invariant C.CheckArms(C.IfChain, branches, seen, base, baseValues, View(),
                              C.Paths(continuingPaths, continuingValuePaths))
               == C.CheckArms(C.IfChain, s.arms, {}, base, baseValues, old(View()), C.Paths([], []))
        decreases branches
      {
        seen := seen + {branches.tag};
        VisitBranch(branches.body, base, baseValues);
        if !flowTerminated {
          continuingPaths := continuingPaths + [keepLifetimes];
          continuingValuePaths := continuingValuePaths + [valueFlow];
        }
        branches := branches.rest;
      }
      ghost var (s1, p1) := C.CheckArms(C.IfChain, s.arms, {}, base, baseValues, old(View()), C.Paths([], []));
      ghost var (s2, p2) := C.CheckElse(s.els, base, baseValues, true, s1, p1);
      if s.els.ElseBody? {
        VisitBranch(s.els.body, base, baseValues);
        if !flowTerminated {
          continuingPaths := continuingPaths + [keepLifetimes];
          continuingValuePaths := continuingValuePaths + [valueFlow];
        }
      } else {
        continuingPaths := continuingPaths + [base];
        continuingValuePaths := continuingValuePaths + [baseValues];
      }
      assert View() == s2 && p2 == C.Paths(continuingPaths, continuingValuePaths);
      Rejoin(base, baseValues, continuingPaths, continuingValuePaths, continuingPaths == []);
    }

    /** One case: its label, then its body. */
    method VisitCase(on: Selector, tag: Label, body: Stmts, base: F.KeepMap, baseValues: F.FlowMap, labels: set<Label>)
      requires Valid()
      modifies this
      ensures View() == C.CheckBlock(body,
                                     C.EnterArm(C.SwitchOn(on), tag, labels,
                                                C.EnterBranch(base, baseValues, old(View()))))
      ensures Valid()
      decreases body, 1
    {
      hide C.CheckBlock, LabelFits;
      ghost var s0 := C.EnterBranch(base, baseValues, View());
      FlowFrame.EnterArmGrows(C.SwitchOn(on), tag, labels, s0);
      FlowFrame.BlockGrows(body, C.EnterArm(C.SwitchOn(on), tag, labels, s0));
      keepLifetimes, valueFlow, flowTerminated := base, baseValues, false;
      if !LabelFits(on, tag) { Report(F.SwitchCaseType, F.NO_SYMBOL); }
      if tag in labels { Report(F.DuplicateSwitchCase, F.NO_SYMBOL); }
      VisitCompound(body);
    }

    method VisitSwitch(s: Stmt)
      requires s.Switch? && Valid()
      modifies this
      ensures Valid() && View() == C.CheckSwitch(s, old(View()))
      decreases s, 0
    {
      hide C.CheckArms, C.CheckBlock, C.Covers, C.EnterArm, C.Rejoin, C.EnterBranch;
      FlowFrame.SwitchGrows(s, View());
      var base, baseValues := keepLifetimes, valueFlow;
      var continuingPaths: seq<F.KeepMap>, continuingValuePaths: seq<F.FlowMap> := [], [];
      var labels: set<Label> := {};
      var cases := s.arms;
      while cases.Arm?
        invariant Valid() && (cases == s.arms || cases < s.arms)
        invariant labels + Labels(cases) == Labels(s.arms)
        invariant C.CheckArms(C.SwitchOn(s.on), cases, labels, base, baseValues, View(),
                              C.Paths(continuingPaths, continuingValuePaths))
               == C.CheckArms(C.SwitchOn(s.on), s.arms, {}, base, baseValues, old(View()), C.Paths([], []))
        decreases cases
      {
        ArmsNext(C.SwitchOn(s.on), cases, labels, base, baseValues, View(),
                 C.Paths(continuingPaths, continuingValuePaths));
        VisitCase(s.on, cases.tag, cases.body, base, baseValues, labels);
        labels := labels + {cases.tag};
        if !flowTerminated {
          continuingPaths := continuingPaths + [keepLifetimes];
          continuingValuePaths := continuingValuePaths + [valueFlow];
        }
        cases := cases.rest;
      }
      ArmsNext(C.SwitchOn(s.on), cases, labels, base, baseValues, View(),
               C.Paths(continuingPaths, continuingValuePaths));
      if s.els.ElseBody? {
        VisitBranch(s.els.body, base, baseValues);
        if !flowTerminated {
          continuingPaths := continuingPaths + [keepLifetimes];
          continuingValuePaths := continuingValuePaths + [valueFlow];
        }
      }
      assert labels == Labels(s.arms);
      var exhaustive := s.els.ElseBody? || C.Covers(s.on, labels);
      ghost var (s1, p1) := C.CheckArms(C.SwitchOn(s.on), s.arms, {}, base, baseValues, old(View()), C.Paths([], []));
      ghost var (s2, p2) := C.CheckElse(s.els, base, baseValues, !exhaustive, s1, p1);
      assert View() == s2;
      if s.exhaustive && !exhaustive { Report(F.NonExhaustiveMatch, F.NO_SYMBOL); }
      if !exhaustive {
        continuingPaths := continuingPaths + [base];
        continuingValuePaths := continuingValuePaths + [baseValues];
      }
      assert p2 == C.Paths(continuingPaths, continuingValuePaths);
      Rejoin(base, baseValues, continuingPaths, continuingValuePaths, exhaustive && continuingPaths == []);
    }

    /** While and do-while; they differ in the exits known before the body is walked. */
    method VisitLoop(body: Stmts, firstExits: seq<F.KeepMap>, firstValueExits: seq<F.FlowMap>)
      requires Valid()
      modifies this
      ensures Valid() && View() == C.CheckLoop(body, C.Paths(firstExits, firstValueExits), old(View()))
      decreases body, 1
    {
      hide C.CheckBlock, F.MergeKeepPaths, F.MergeFlowPaths, FlowFrame.Frame, FlowFrame.TopGrows;
      FlowFrame.LoopGrows(body, C.Paths(firstExits, firstValueExits), View());
      var beforeLoop, beforeLoopValues := keepLifetimes, valueFlow;
      loopKeepDepths := loopKeepDepths + [|keepScopes|];
      loopBreakStates := loopBreakStates + [[]];
      loopBreakValueStates := loopBreakValueStates + [[]];
      flowTerminated := false;
      VisitCompound(body);
      var exits, valueExits := firstExits, firstValueExits;
      if !flowTerminated {
        exits := exits + [keepLifetimes];
        valueExits := valueExits + [valueFlow];
      }
      var last := |loopKeepDepths| - 1;
      exits := exits + loopBreakStates[last];
      valueExits := valueExits + loopBreakValueStates[last];
      if exits == [] { exits := [beforeLoop]; }
      if valueExits == [] { valueExits := [beforeLoopValues]; }
      loopBreakStates := loopBreakStates[..last];
      loopBreakValueStates := loopBreakValueStates[..last];
      loopKeepDepths := loopKeepDepths[..last];
      MergeKeepPaths(beforeLoop, exits);
      MergeValueFlowPaths(beforeLoopValues, valueExits);
      flowTerminated := false;
    }

    static lemma CatchReady(tag: Label, body: Stmts, seen: set<Label>, st: F.State)
      requires FlowFrame.Ready(st)
      ensures FlowFrame.Ready(C.EnterArm(C.Catches, tag, seen, st))
      ensures FlowFrame.Ready(C.LeaveArm(C.Catches, C.CheckBlock(body, C.EnterArm(C.Catches, tag, seen, st))))
    {
      hide C.CheckBlock, C.EnterArm;
      var s1 := C.EnterArm(C.Catches, tag, seen, st);
      FlowFrame.EnterArmGrows(C.Catches, tag, seen, st);
      FlowFrame.BlockGrows(body, s1);
      FlowFrame.SameArm(st, s1, C.CheckBlock(body, s1), C.Catches);
    }

    /** One catch clause, in a scope of its own; the tables it ends with are returned from
        before that scope is left. */
    method VisitCatch(tag: Label, body: Stmts, base: F.KeepMap, baseValues: F.FlowMap, ghost seen: set<Label>)
      returns (continues: bool, keep: F.KeepMap, flow: F.FlowMap)
      requires Valid()
      modifies this
      ensures var s := C.CheckBlock(body,
                                    C.EnterArm(C.Catches, tag, seen, C.EnterBranch(base, baseValues, old(View()))));
              && View() == C.LeaveArm(C.Catches, s) && continues == !s.terminated && keep == s.keep && flow == s.flow
              && Valid()
      decreases body, 1
    {
      hide C.CheckBlock, F.PopFlowScope, F.PopKeepScope, F.RegisterFlow;
      CatchReady(tag, body, seen, C.EnterBranch(base, baseValues, View()));
      keepLifetimes, valueFlow, flowTerminated := base, baseValues, false;
      PushKeepScope();
      PushValueFlowScope();
      if tag.Caught? { RegisterFlowSymbol(tag.x, C.FRESH_RAW); }
      VisitCompound(body);
      continues, keep, flow := !flowTerminated, keepLifetimes, valueFlow;
      PopValueFlowScope();
      PopKeepScope();
    }

    /** The body of a try and its catch clauses. */
    method VisitGuarded(s: Stmt)
      requires s.Try? && Valid()
      modifies this
      ensures Valid() && View() == C.CheckGuarded(s, old(View()))
      decreases s, 0
    {
      hide C.CheckArms, C.CheckBlock, C.EnterArm, C.LeaveArm, F.MergeKeepPaths, F.MergeFlowPaths, FlowFrame.Frame,
           FlowFrame.TopGrows;
      FlowFrame.GuardedGrows(s, View());
      var base, baseValues := keepLifetimes, valueFlow;
      var continuingPaths: seq<F.KeepMap>, continuingValuePaths: seq<F.FlowMap> := [], [];
      flowTerminated := false;
      VisitCompound(s.body);
      if !flowTerminated {
        continuingPaths := continuingPaths + [keepLifetimes];
        continuingValuePaths := continuingValuePaths + [valueFlow];
      }
      ghost var start, first := View(), C.Paths(continuingPaths, continuingValuePaths);
      var catches := s.handlers;
      ghost var seen: set<Label> := {};
      while catches.Arm?
        invariant Valid() && (catches == s.handlers || catches < s.handlers)
        invariant |continuingPaths| == |continuingValuePaths|
        invariant C.CheckArms(C.Catches, catches, seen, base, baseValues, View(),
                              C.Paths(continuingPaths, continuingValuePaths))
               == C.CheckArms(C.Catches, s.handlers, {}, base, baseValues, start, first)
        decreases catches
      {
        ArmsNext(C.Catches, catches, seen, base, baseValues, View(), C.Paths(continuingPaths, continuingValuePaths));
        var continues, keep, flow := VisitCatch(catches.tag, catches.body, base, baseValues, seen);
        seen := seen + {catches.tag};
        if continues {
          continuingPaths := continuingPaths + [keep];
          continuingValuePaths := continuingValuePaths + [flow];
        }
        catches := catches.rest;
      }
      ArmsNext(C.Catches, catches, seen, base, baseValues, View(), C.Paths(continuingPaths, continuingValuePaths));
      assert C.CheckArms(C.Catches, s.handlers, {}, base, baseValues, start, first)
          == (View(), C.Paths(continuingPaths, continuingValuePaths));
      EmptyMerge(base, baseValues);
      if continuingPaths == [] {
        keepLifetimes, valueFlow := base, baseValues;
      } else {
        MergeKeepPaths(base, continuingPaths);
        MergeValueFlowPaths(baseValues, continuingValuePaths);
      }
      flowTerminated := continuingPaths == [];
    }

    static lemma EmptyMerge(base: F.KeepMap, baseValues: F.FlowMap)
      ensures F.MergeKeepPaths(base, []) == base && F.MergeFlowPaths(baseValues, []) == baseValues
    {
    }

    method VisitTry(s: Stmt)
      requires s.Try? && Valid()
      modifies this
      ensures Valid() && View() == C.CheckTry(s, old(View()))
      decreases s, 1
    {
      hide C.CheckBlock, C.CheckGuarded, FlowFrame.TopGrows;
      FlowFrame.TryGrows(s, View());
      VisitGuarded(s);
      if s.fin.ElseBody? {
        var terminatedBeforeFinally := flowTerminated;
        flowTerminated, finallyDepth := false, finallyDepth + 1;
        FlowFrame.BlockGrows(s.fin.body, View());
        VisitCompound(s.fin.body);
        finallyDepth := finallyDepth - 1;
        if !flowTerminated { flowTerminated := terminatedBeforeFinally; }
      }
    }

    /** A function body, from a new checker. */
    method ResolveFunction(body: Stmts, returnsValue: bool)
      requires View() == C.START
      modifies this
      ensures View() == C.CheckFunction(body, returnsValue)
      ensures diagnostics == [] <==> C.Accepted(body, returnsValue)
    {
      VisitCompound(body);
      if returnsValue && !flowTerminated { Report(F.MissingReturn, F.NO_SYMBOL); }
      PopValueFlowScope();
      PopKeepScope();
    }
  }
}
