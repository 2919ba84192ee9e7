/** Once the state of an owner or task depends on the path taken, the program is lost: every
    way to use it or to leave its scope is reported, and no statement makes the state certain
    again.  So a body without diagnostics never gets there. */
module FlowDoom {
  import opened FlowSyntax
  import opened FlowState
  import opened FlowChecker
  import opened FlowFrame
  import opened FlowTracking
  import opened FlowFragment

  predicate Bad(kind: Kind, f: Flow) {
    (kind == RawOwner && f.validity == MaybeInvalid) || (kind == Task && f.task == MaybePending)
  }

  /** The owner may be invalid and still owes a delete, or the task may be pending. */
  predicate DoomedAt(keep: KeepMap, flow: FlowMap, x: Id, kind: Kind) {
    && x in flow && Bad(kind, flow[x])
    && (kind == RawOwner ==> x in keep && keep[x] != Deleted)
  }

  predicate Doomed(st: State, x: Id, kind: Kind) { DoomedAt(st.keep, st.flow, x, kind) }

  /** The first scope opened inside the innermost loop. */
  function Depth(st: State): nat { if |st.loopDepths| == 0 then 0 else Last(st.loopDepths) }

  ghost predicate BadFlows(flows: seq<FlowMap>, x: Id, kind: Kind) {
    forall j | 0 <= j < |flows| :: x in flows[j] && Bad(kind, flows[j][x])
  }

  ghost predicate OwedKeeps(keeps: seq<KeepMap>, x: Id, kind: Kind) {
    kind == RawOwner ==> forall j | 0 <= j < |keeps| :: x in keeps[j] && keeps[j][x] != Deleted
  }

  /** Every way out of the visited text is as doomed as the way in, and there is one: only
      a loop exit can end it, and none can leave the scope of `x`. */
  ghost predicate StillDoomed(st: State, r: State, x: Id, kind: Kind, lv: int, continues: bool) {
    && (!r.terminated ==> Doomed(r, x, kind))
    && BadFlows(NewFlows(st, r), x, kind)
    && OwedKeeps(NewKeeps(st, r), x, kind)
    && (r.terminated ==> NewFlows(st, r) != [])
    && (r.terminated && !continues ==> NewKeeps(st, r) != [])
    && (lv >= Depth(st) ==> NewFlows(st, r) == [])
  }

  // ---- The checks on leaving scopes ----

  lemma {:induction false} KeepReportsNone(ids: seq<Id>, keep: KeepMap, x: Id)
    requires KeepReports(ids, keep) == [] && x in ids && x in keep
    ensures keep[x] == Deleted
  {
    if Last(ids) != x {
      assert x in ButLast(ids);
      KeepReportsNone(ButLast(ids), keep, x);
    }
  }

  lemma {:induction false} TaskReportsNone(ids: seq<Id>, flow: FlowMap, x: Id)
    requires TaskReports(ids, flow) == [] && x in ids && x in flow
    ensures flow[x].task !in {Pending, MaybePending}
  {
    if Last(ids) != x {
      assert x in ButLast(ids);
      TaskReportsNone(ButLast(ids), flow, x);
    }
  }

  lemma {:induction false} KeepScopesNone(scopes: seq<seq<Id>>, keep: KeepMap, x: Id, i: nat)
    requires KeepScopeReports(scopes, keep) == [] && i < |scopes| && x in scopes[i] && x in keep
    ensures keep[x] == Deleted
  {
    if i == |scopes| - 1 { KeepReportsNone(Last(scopes), keep, x); }
    else { KeepScopesNone(ButLast(scopes), keep, x, i); }
  }

  lemma {:induction false} TaskScopesNone(scopes: seq<seq<Id>>, flow: FlowMap, x: Id, i: nat)
    requires TaskScopeReports(scopes, flow) == [] && i < |scopes| && x in scopes[i] && x in flow
    ensures flow[x].task !in {Pending, MaybePending}
  {
    if i == |scopes| - 1 { TaskReportsNone(Last(scopes), flow, x); }
    else { TaskScopesNone(ButLast(scopes), flow, x, i); }
  }

  /** What a scope exit without a report has made sure of. */
  predicate Released(st: State, x: Id, kind: Kind) {
    match kind
    case RawOwner => x in st.keep && st.keep[x] == Deleted
    case Task => x in st.flow && st.flow[x].task !in {Pending, MaybePending}
    case _ => true
  }

  lemma QuietScopes(st: State, first: nat, x: Id, kind: Kind, lv: int)
    requires Located(st, x, Inside(kind), lv) && first <= lv
    requires Quiet(st, CheckScopesFrom(st, first))
    ensures Released(st, x, kind)
  {
    var s1 := CheckKeepScopesFrom(st, first);
    QuietSplit(st, s1, CheckScopesFrom(st, first));
    if kind == RawOwner {
      assert KeepScopeReports(From(st.keepScopes, first), st.keep) == [];
      KeepScopesNone(From(st.keepScopes, first), st.keep, x, lv - first);
    }
    if kind == Task {
      assert TaskScopeReports(From(st.flowScopes, first), st.flow) == [];
      TaskScopesNone(From(st.flowScopes, first), st.flow, x, lv - first);
    }
  }

  /** A quiet break or continue: no finally around it, it is in a loop, and what was
      declared inside the loop is released. */
  lemma QuietLoopExit(isBreak: bool, st: State, x: Id, kind: Kind, lv: int)
    requires Located(st, x, Inside(kind), lv) && Quiet(st, CheckLoopExit(isBreak, st))
    ensures |st.loopDepths| > 0 && st.finallyDepth == 0
    ensures lv >= Depth(st) ==> Released(st, x, kind)
  {
    var s := ReportIf(st.finallyDepth > 0, st, FinallyControlTransfer, NO_SYMBOL);
    if |st.loopDepths| > 0 {
      ScopeChecks(s, Last(st.loopDepths));
      QuietSplit(st, s, CheckScopesFrom(s, Last(st.loopDepths)));
      assert s == st;
      if lv >= Depth(st) { QuietScopes(st, Last(st.loopDepths), x, kind, lv); }
    }
  }

  lemma QuietFunctionExit(st: State, x: Id, kind: Kind, lv: int)
    requires Located(st, x, Inside(kind), lv) && Quiet(st, CheckFunctionExit(st))
    ensures st.finallyDepth == 0 && Released(st, x, kind)
  {
    var s := ReportIf(st.finallyDepth > 0, st, FinallyControlTransfer, NO_SYMBOL);
    ScopeChecks(s, 0);
    QuietSplit(st, s, CheckScopesFrom(s, 0));
    assert s == st;
    QuietScopes(st, 0, x, kind, lv);
  }

  lemma QuietPop(st: State, x: Id, kind: Kind, lv: int)
    requires Located(st, x, Inside(kind), lv) && lv == Top(st)
    requires Quiet(st, PopScopes(st)) && !st.terminated
    ensures Released(st, x, kind)
  {
    var s1 := PopFlowScope(st);
    QuietSplit(st, s1, PopScopes(st));
    if kind == Task {
      assert TaskScopeReports(From(st.flowScopes, lv), st.flow) == [];
      TaskScopesNone(From(st.flowScopes, lv), st.flow, x, 0);
    }
    if kind == RawOwner {
      assert KeepScopeReports(From(st.keepScopes, lv), st.keep) == [];
      KeepScopesNone(From(st.keepScopes, lv), st.keep, x, 0);
    }
  }

  // ---- Joins absorb ----

  lemma {:induction false} JoinBad(x: Id, base: Flow, flows: seq<FlowMap>, i: nat, kind: Kind)
    requires i < |flows| && Bad(kind, FlowAt(flows[i], x, base))
    ensures Bad(kind, JoinFlow(x, base, flows))
  {
    if |flows| > 1 && i < |flows| - 1 { JoinBad(x, base, ButLast(flows), i, kind); }
  }

  lemma {:induction false} JoinOwed(x: Id, base: Keep, keeps: seq<KeepMap>, i: nat)
    requires i < |keeps| && KeepAt(keeps[i], x, base) != Deleted
    ensures JoinKeep(x, base, keeps) != Deleted
  {
    if |keeps| > 1 && i < |keeps| - 1 { JoinOwed(x, base, ButLast(keeps), i); }
  }

  lemma JoinDoomed(keep: KeepMap, flow: FlowMap, keeps: seq<KeepMap>, flows: seq<FlowMap>,
                   i: nat, j: nat, x: Id, kind: Kind)
    requires x in flow && (kind == RawOwner ==> x in keep)
    requires j < |flows| && x in flows[j] && Bad(kind, flows[j][x])
    requires kind == RawOwner ==> i < |keeps| && x in keeps[i] && keeps[i][x] != Deleted
    ensures DoomedAt(MergeKeepPaths(keep, keeps), MergeFlowPaths(flow, flows), x, kind)
  {
    JoinBad(x, flow[x], flows, j, kind);
    if kind == RawOwner { JoinOwed(x, keep[x], keeps, i); }
  }

  // ---- Statements ----

  lemma OpDoom(op: Op, y: Id, st: State, x: Id, kind: Kind, lv: int)
    requires Located(st, x, Inside(kind), lv) && Doomed(st, x, kind) && !st.terminated
    requires Resolved(Do(op, y), x, Inside(kind)) && Quiet(st, CheckOp(op, y, st))
    ensures StillDoomed(st, CheckOp(op, y, st), x, kind, lv, false)
  {
    var r := CheckOp(op, y, st);
    OpGrows(op, y, st);
    assert NewFlows(st, r) == [] && NewKeeps(st, r) == [];
  }

  lemma LoopExitDoom(isBreak: bool, st: State, x: Id, kind: Kind, lv: int)
    requires Located(st, x, Inside(kind), lv) && Doomed(st, x, kind) && Owned(Inside(kind))
    requires Quiet(st, CheckLoopExit(isBreak, st))
    ensures StillDoomed(st, CheckLoopExit(isBreak, st), x, kind, lv, !isBreak)
  {
    QuietLoopExit(isBreak, st, x, kind, lv);
    LoopExitRecords(isBreak, st);
    var r := CheckLoopExit(isBreak, st);
    assert NewFlows(st, r) == [st.flow];
    assert NewKeeps(st, r) == if isBreak then [st.keep] else [];
  }

  lemma DoomTransitive(a: State, b: State, c: State, x: Id, kind: Kind, lv: int, m: bool, n: bool)
    requires Frame(a, b) && Frame(b, c) && Ready(a) && Ready(b) && Ready(c)
    requires StillDoomed(a, b, x, kind, lv, m) && !b.terminated && StillDoomed(b, c, x, kind, lv, n)
    ensures StillDoomed(a, c, x, kind, lv, m || n)
  {
    NewTransitive(a, b, c);
  }

  lemma {:induction false} CheckDoom(s: Stmt, st: State, x: Id, kind: Kind, lv: int)
    requires Located(st, x, Inside(kind), lv) && Doomed(st, x, kind) && Owned(Inside(kind)) && !st.terminated
    requires Resolved(s, x, Inside(kind)) && Passable(s)
    requires Quiet(st, Check(s, st))
    ensures StillDoomed(st, Check(s, st), x, kind, lv, Continues(s))
    decreases s, 2
  {
    match s
    case Do(op, y) => OpDoom(op, y, st, x, kind, lv);
    case Call(_) => assert NewFlows(st, st) == [] && NewKeeps(st, st) == [];
    case Block(body) => BlockDoom(body, st, x, kind, lv);
    case If(_, _) => IfDoom(s, st, x, kind, lv);
    case Switch(_, _, _, _) => SwitchDoom(s, st, x, kind, lv);
    case While(body) => WhileDoom(body, st, x, kind, lv);
    case DoWhile(body) => DoWhileDoom(body, st, x, kind, lv);
    case Try(_, _, _) => TryDoom(s, st, x, kind, lv);
    case Throw | Return => QuietFunctionExit(st, x, kind, lv);
    case Break => LoopExitDoom(true, st, x, kind, lv);
    case Continue => LoopExitDoom(false, st, x, kind, lv);
  }

  lemma {:induction false} AllDoom(ss: Stmts, st: State, x: Id, kind: Kind, lv: int)
    requires Located(st, x, Inside(kind), lv) && Doomed(st, x, kind) && Owned(Inside(kind)) && !st.terminated
    requires ResolvedAll(ss, x, Inside(kind)) && PassableAll(ss)
    requires Quiet(st, CheckAll(ss, st))
    ensures StillDoomed(st, CheckAll(ss, st), x, kind, lv, ContinuesAll(ss))
    decreases ss, 0
  {
    match ss
    case End => assert NewFlows(st, st) == [] && NewKeeps(st, st) == [];
    case Then(s, tail) =>
      var s1 := Check(s, st);
      CheckGrows(s, st);
      if s1.terminated {
        CheckDoom(s, st, x, kind, lv);
      } else {
        AllGrows(tail, s1);
        QuietSplit(st, s1, CheckAll(tail, s1));
        CheckDoom(s, st, x, kind, lv);
        CheckTracks(s, st, x, Inside(kind), lv);
        AllDoom(tail, s1, x, kind, lv);
        DoomTransitive(st, s1, CheckAll(tail, s1), x, kind, lv, Continues(s), ContinuesAll(tail));
      }
  }

  lemma {:induction false} BlockDoom(body: Stmts, st: State, x: Id, kind: Kind, lv: int)
    requires Located(st, x, Inside(kind), lv) && Doomed(st, x, kind) && Owned(Inside(kind)) && !st.terminated
    requires ResolvedAll(body, x, Inside(kind)) && PassableAll(body)
    requires Quiet(st, CheckBlock(body, st))
    ensures StillDoomed(st, CheckBlock(body, st), x, kind, lv, ContinuesAll(body))
    decreases body, 1
  {
    hide CheckAll, BadFlows, OwedKeeps, Only, PopScopes, ResolvedAll, PassableAll;
    var s0 := PushScopes(st);
    var s1 := CheckAll(body, s0);
    LocatedPush(st, x, Inside(kind), lv);
    AllGrows(body, s0);
    PopQuiet(s1);
    QuietSplit(s0, s1, PopScopes(s1));
    AllDoom(body, s0, x, kind, lv);
    AllTracks(body, s0, x, Inside(kind), lv);
    PopKeeps(s1, x, kind, lv);
  }

  /** Leaving an inner scope does not touch `x`. */
  lemma PopKeeps(st: State, x: Id, kind: Kind, lv: int)
    requires Located(st, x, Inside(kind), lv) && lv < Top(st)
    ensures x in PopScopes(st).flow && PopScopes(st).flow[x] == st.flow[x]
    ensures kind == RawOwner ==> x in PopScopes(st).keep && PopScopes(st).keep[x] == st.keep[x]
    ensures PopScopes(st).breakFlows == st.breakFlows && PopScopes(st).breakKeeps == st.breakKeeps
    ensures PopScopes(st).terminated == st.terminated
  {
    assert x !in IdsOf(Last(st.flowScopes)) && x !in IdsOf(Last(st.keepScopes));
  }

  lemma {:induction false} WhileDoom(body: Stmts, st: State, x: Id, kind: Kind, lv: int)
    requires Located(st, x, Inside(kind), lv) && Doomed(st, x, kind)
    ensures StillDoomed(st, Check(While(body), st), x, kind, lv, false)
  {
    hide CheckBlock, MergeKeepPaths, MergeFlowPaths, Only;
    var s1 := CheckBlock(body, EnterLoop(st));
    var first := Paths([st.keep], [st.flow]);
    BlockGrows(body, EnterLoop(st));
    LeaveLists(st, first, s1);
    LeaveDoomed(st, s1, x, kind);
    var r := LeaveLoop(st.keep, st.flow, first, s1);
    assert NewFlows(st, r) == [] && NewKeeps(st, r) == [];
  }

  lemma LeaveDoomed(st: State, s1: State, x: Id, kind: Kind)
    requires Doomed(st, x, kind)
    requires |s1.loopDepths| > 0 && |s1.breakKeeps| > 0 && |s1.breakFlows| > 0
    ensures Doomed(LeaveLoop(st.keep, st.flow, Paths([st.keep], [st.flow]), s1), x, kind)
  {
    var p := AddPath(Paths([st.keep], [st.flow]), s1);
    JoinDoomed(st.keep, st.flow, p.keeps + Last(s1.breakKeeps), p.flows + Last(s1.breakFlows), 0, 0, x, kind);
  }

  /** Without the entry state as a path: the end of the body is doomed, or the body was left
      by recorded exits that are. */
  lemma {:induction false} DoWhileDoom(body: Stmts, st: State, x: Id, kind: Kind, lv: int)
    requires Located(st, x, Inside(kind), lv) && Doomed(st, x, kind) && Owned(Inside(kind)) && !st.terminated
    requires ResolvedAll(body, x, Inside(kind)) && PassableAll(body)
    requires Quiet(st, Check(DoWhile(body), st))
    ensures StillDoomed(st, Check(DoWhile(body), st), x, kind, lv, false)
    decreases body, 2
  {
    hide CheckBlock, ResolvedAll, PassableAll, Only, LeaveLoop, BadFlows, OwedKeeps;
    var s0, first := EnterLoop(st), Paths([], []);
    var s1 := CheckBlock(body, s0);
    BlockGrows(body, s0);
    LeaveLists(st, first, s1);
    LeaveReports(st, first, s1);
    BlockDoom(body, s0, x, kind, lv);
    LeaveExitsDoomed(st, s1, x, kind, lv, ContinuesAll(body));
    LoopEnds(body, first, st);
    NothingRecorded(st, CheckLoop(body, first, st), x, kind, lv);
  }

  lemma NothingRecorded(st: State, r: State, x: Id, kind: Kind, lv: int)
    requires r.breakFlows == st.breakFlows && r.breakKeeps == st.breakKeeps && !r.terminated && Doomed(r, x, kind)
    ensures StillDoomed(st, r, x, kind, lv, false)
  {
    assert NewFlows(st, r) == [] && NewKeeps(st, r) == [];
  }

  lemma LeaveReports(st: State, first: Paths, s1: State)
    requires |s1.loopDepths| > 0 && |s1.breakKeeps| > 0 && |s1.breakFlows| > 0
    ensures LeaveLoop(st.keep, st.flow, first, s1).diagnostics == s1.diagnostics
  {
  }

  lemma LeaveExitsDoomed(st: State, s1: State, x: Id, kind: Kind, lv: int, continues: bool)
    requires Ready(st) && Ready(s1) && Frame(EnterLoop(st), s1) && Doomed(st, x, kind)
    requires StillDoomed(EnterLoop(st), s1, x, kind, lv, continues)
    ensures Doomed(LeaveLoop(st.keep, st.flow, Paths([], []), s1), x, kind)
  {
    hide MergeKeepPaths, MergeFlowPaths, Bad;
    assert NewFlows(EnterLoop(st), s1) == Last(s1.breakFlows) && NewKeeps(EnterLoop(st), s1) == Last(s1.breakKeeps);
    var p := AddPath(Paths([], []), s1);
    var keeps, flows := p.keeps + Last(s1.breakKeeps), p.flows + Last(s1.breakFlows);
    assert flows != [];
    JoinDoomed(st.keep, st.flow, if keeps == [] then [st.keep] else keeps, flows, 0, 0, x, kind);
  }

  lemma LoopEnds(body: Stmts, first: Paths, st: State)
    ensures !CheckLoop(body, first, st).terminated
  {
    hide CheckBlock;
  }

  /** The branches of a statement, each entered doomed. */
  ghost predicate ArmsDoomed(st: State, r: State, p: Paths, q: Paths, x: Id, kind: Kind, lv: int,
                             some: bool, continues: bool) {
    && |p.keeps| == |p.flows| <= |q.flows| == |q.keeps|
    && (DoomedPaths(p, x, kind) ==> DoomedPaths(q, x, kind))
    && BadFlows(NewFlows(st, r), x, kind)
    && OwedKeeps(NewKeeps(st, r), x, kind)
    && (lv >= Depth(st) ==> NewFlows(st, r) == [])
    && (some && |q.keeps| == |p.keeps| ==>
          NewFlows(st, r) != [] && (!continues ==> NewKeeps(st, r) != []))
  }

  ghost predicate DoomedPaths(p: Paths, x: Id, kind: Kind) {
    |p.keeps| == |p.flows| && forall i | 0 <= i < |p.keeps| :: DoomedAt(p.keeps[i], p.flows[i], x, kind)
  }

  lemma ArmDoomed(st: State, r: State, p: Paths, x: Id, kind: Kind, lv: int, continues: bool)
    requires |p.keeps| == |p.flows|
    requires StillDoomed(st, r, x, kind, lv, continues)
    ensures ArmsDoomed(st, r, p, AddPath(p, r), x, kind, lv, true, continues)
  {
  }

  lemma ArmsDoomedChain(a: State, b: State, c: State, p: Paths, q: Paths, r: Paths, x: Id, kind: Kind, lv: int,
                        some: bool, more: bool, m: bool, n: bool)
    requires Frame(a, b) && Frame(b, c) && Ready(a) && Ready(b) && Ready(c)
    requires ArmsDoomed(a, b, p, q, x, kind, lv, some, m) && ArmsDoomed(b, c, q, r, x, kind, lv, more, n)
    ensures ArmsDoomed(a, c, p, r, x, kind, lv, some || more, m || n)
  {
    NewTransitive(a, b, c);
  }

  lemma {:induction false} ArmsDoom(kind: ArmKind, arms: Arms, seen: set<Label>, keep: KeepMap, flow: FlowMap,
                                    st: State, p: Paths, x: Id, k: Kind, lv: int)
    requires Located(st.(keep := keep, flow := flow), x, Inside(k), lv) && DoomedAt(keep, flow, x, k)
    requires Owned(Inside(k)) && (kind.Catches? || NoneCaught(arms)) && |p.keeps| == |p.flows|
    requires ResolvedArms(arms, x, Inside(k)) && PassableArms(arms)
    requires Quiet(st, CheckArms(kind, arms, seen, keep, flow, st, p).0)
    ensures var (r, q) := CheckArms(kind, arms, seen, keep, flow, st, p);
            ArmsDoomed(st, r, p, q, x, k, lv, arms.Arm?, ContinuesArms(arms))
    decreases arms, 0
  {
    hide CheckBlock, EnterArm, LeaveArm, Only, ArmsDoomed, StillDoomed, PassableAll, ResolvedAll, ContinuesAll,
         TopGrows, DoomedAt;
    match arms
    case NoArms => NoArmsDoomed(st, p, x, k, lv);
    case Arm(tag, body, rest) =>
      var s2 := CheckBlock(body, EnterArm(kind, tag, seen, EnterBranch(keep, flow, st)));
      var s3, p1 := LeaveArm(kind, s2), AddPath(p, s2);
      var (r, q) := CheckArms(kind, rest, seen + {tag}, keep, flow, s3, p1);
      ArmKeepsFrame(kind, tag, body, seen, keep, flow, st);
      ArmsGrow(kind, rest, seen + {tag}, keep, flow, s3, p1);
      ArmsApart(st, s2, s3, r);
      ArmDoom(kind, tag, body, seen, keep, flow, st, x, k, lv);
      ArmDoomed(st, s2, p, x, k, lv, ContinuesAll(body));
      ArmsDoomedAfter(st, s2, s3, p, p1, x, k, lv, true, ContinuesAll(body));
      ArmTracks(kind, tag, body, seen, keep, flow, st, x, Inside(k), lv);
      ArmsDoom(kind, rest, seen + {tag}, keep, flow, s3, p1, x, k, lv);
      ArmsDoomedChain(st, s3, r, p, p1, q, x, k, lv, true, rest.Arm?, ContinuesAll(body), ContinuesArms(rest));
  }

  lemma NoArmsDoomed(st: State, p: Paths, x: Id, kind: Kind, lv: int)
    requires |p.keeps| == |p.flows|
    ensures ArmsDoomed(st, st, p, p, x, kind, lv, false, false)
  {
    assert NewFlows(st, st) == [] && NewKeeps(st, st) == [];
  }

  /** Leaving the scope of a catch clause records nothing. */
  lemma ArmsDoomedAfter(st: State, r: State, r': State, p: Paths, q: Paths, x: Id, kind: Kind, lv: int, some: bool,
                        continues: bool)
    requires ArmsDoomed(st, r, p, q, x, kind, lv, some, continues)
    requires r'.breakFlows == r.breakFlows && r'.breakKeeps == r.breakKeeps
    ensures ArmsDoomed(st, r', p, q, x, kind, lv, some, continues)
  {
    SameExits(st, st, r, r');
  }

  lemma ArmsApart(a: State, b: State, c: State, d: State)
    requires a.diagnostics <= b.diagnostics <= c.diagnostics <= d.diagnostics && Quiet(a, d)
    ensures Quiet(a, b) && Quiet(c, d)
  {
    QuietSplit(a, b, d);
    QuietSplit(b, c, d);
  }

  lemma {:induction false} ArmDoom(kind: ArmKind, tag: Label, body: Stmts, seen: set<Label>,
                                   keep: KeepMap, flow: FlowMap, st: State, x: Id, k: Kind, lv: int)
    requires Located(st.(keep := keep, flow := flow), x, Inside(k), lv) && DoomedAt(keep, flow, x, k)
    requires Owned(Inside(k)) && (kind.Catches? || !tag.Caught?) && tag != Caught(x)
    requires ResolvedAll(body, x, Inside(k)) && PassableAll(body)
    requires Quiet(st, CheckBlock(body, EnterArm(kind, tag, seen, EnterBranch(keep, flow, st))))
    ensures StillDoomed(st, CheckBlock(body, EnterArm(kind, tag, seen, EnterBranch(keep, flow, st))),
                        x, k, lv, ContinuesAll(body))
    decreases body, 2
  {
    hide CheckBlock, EnterArm, Only, TopGrows, BadFlows, OwedKeeps;
    var s0 := EnterBranch(keep, flow, st);
    var s1 := EnterArm(kind, tag, seen, s0);
    var s2 := CheckBlock(body, s1);
    EnterArmGrows(kind, tag, seen, s0);
    EnterArmDoomed(kind, tag, seen, s0, x, k);
    BlockGrows(body, s1);
    QuietSplit(s0, s1, s2);
    EnterArmTracks(kind, tag, seen, s0, x, Inside(k), lv);
    BlockDoom(body, s1, x, k, lv);
    SameExits(st, s1, s2, s2);
  }

  lemma EnterArmDoomed(kind: ArmKind, tag: Label, seen: set<Label>, st: State, x: Id, k: Kind)
    requires Ready(st) && Doomed(st, x, k) && tag != Caught(x)
    ensures var r := EnterArm(kind, tag, seen, st);
            && Doomed(r, x, k) && r.terminated == st.terminated && r.loopDepths == st.loopDepths
            && r.breakFlows == st.breakFlows && r.breakKeeps == st.breakKeeps && st.diagnostics <= r.diagnostics
  {
    hide CheckLabel, RegisterFlow;
    match kind
    case IfChain =>
    case SwitchOn(on) => LabelOnly(on, tag, seen, st);
    case Catches => if tag.Caught? { CatchOnly(tag.x, st); }
  }

  lemma {:induction false} ElseDoom(els: Else, keep: KeepMap, flow: FlowMap, open: bool, st: State, p: Paths,
                                    x: Id, k: Kind, lv: int)
    requires Located(st.(keep := keep, flow := flow), x, Inside(k), lv) && DoomedAt(keep, flow, x, k)
    requires Owned(Inside(k)) && |p.keeps| == |p.flows|
    requires ResolvedElse(els, x, Inside(k)) && PassableElse(els)
    requires Quiet(st, CheckElse(els, keep, flow, open, st, p).0)
    ensures var (r, q) := CheckElse(els, keep, flow, open, st, p);
            ArmsDoomed(st, r, p, q, x, k, lv, open || els.ElseBody?, ContinuesElse(els))
    decreases els, 0
  {
    hide CheckBlock, Only, ResolvedAll, PassableAll;
    match els
    case NoElse => assert NewFlows(st, st) == [] && NewKeeps(st, st) == [];
    case ElseBody(body) =>
      var s0 := EnterBranch(keep, flow, st);
      BlockDoom(body, s0, x, k, lv);
      var r := CheckBlock(body, s0);
      assert NewFlows(st, r) == NewFlows(s0, r) && NewKeeps(st, r) == NewKeeps(s0, r);
      ArmDoomed(st, r, p, x, k, lv, ContinuesAll(body));
  }

  lemma RejoinDoomed(st: State, s2: State, p: Paths, terminated: bool, x: Id, kind: Kind, lv: int, continues: bool)
    requires Doomed(st, x, kind) && DoomedPaths(p, x, kind)
    requires terminated ==> p.keeps == []
    requires ArmsDoomed(st, s2, Paths([], []), p, x, kind, lv, true, continues)
    ensures StillDoomed(st, Rejoin(st.keep, st.flow, p, terminated, s2), x, kind, lv, continues)
  {
    var r := Rejoin(st.keep, st.flow, p, terminated, s2);
    assert NewFlows(st, r) == NewFlows(st, s2) && NewKeeps(st, r) == NewKeeps(st, s2);
    if p.keeps != [] {
      assert DoomedAt(p.keeps[0], p.flows[0], x, kind);
      JoinDoomed(st.keep, st.flow, p.keeps, p.flows, 0, 0, x, kind);
    }
  }

  lemma {:induction false} IfDoom(s: Stmt, st: State, x: Id, kind: Kind, lv: int)
    requires s.If? && Located(st, x, Inside(kind), lv) && Doomed(st, x, kind) && Owned(Inside(kind))
    requires Resolved(s, x, Inside(kind)) && Passable(s)
    requires Quiet(st, CheckIf(s, st))
    ensures StillDoomed(st, CheckIf(s, st), x, kind, lv, Continues(s))
    decreases s, 0
  {
    var p0 := Paths([], []);
    var (s1, p1) := CheckArms(IfChain, s.arms, {}, st.keep, st.flow, st, p0);
    var (s2, p2) := CheckElse(s.els, st.keep, st.flow, true, s1, p1);
    ArmsGrow(IfChain, s.arms, {}, st.keep, st.flow, st, p0);
    ElseGrows(s.els, st.keep, st.flow, true, s1, p1);
    QuietSplit(st, s1, s2);
    ArmsDoom(IfChain, s.arms, {}, st.keep, st.flow, st, p0, x, kind, lv);
    ArmsTrack(IfChain, s.arms, {}, st.keep, st.flow, st, p0, x, Inside(kind), lv);
    ElseDoom(s.els, st.keep, st.flow, true, s1, p1, x, kind, lv);
    ArmsDoomedChain(st, s1, s2, p0, p1, p2, x, kind, lv, s.arms.Arm?, true, ContinuesArms(s.arms),
                    ContinuesElse(s.els));
    RejoinDoomed(st, s2, p2, p2.keeps == [], x, kind, lv, Continues(s));
  }

  lemma {:induction false} SwitchDoom(s: Stmt, st: State, x: Id, kind: Kind, lv: int)
    requires s.Switch? && Located(st, x, Inside(kind), lv) && Doomed(st, x, kind) && Owned(Inside(kind))
    requires Resolved(s, x, Inside(kind)) && Passable(s)
    requires Quiet(st, CheckSwitch(s, st))
    ensures StillDoomed(st, CheckSwitch(s, st), x, kind, lv, Continues(s))
    decreases s, 0
  {
    hide CheckArms, CheckElse, Only, TopGrows, MentionsArms, ContinuesArms, ContinuesElse;
    var p0 := Paths([], []);
    var all := s.els.ElseBody? || Covers(s.on, Labels(s.arms));
    var (s1, p1) := CheckArms(SwitchOn(s.on), s.arms, {}, st.keep, st.flow, st, p0);
    var (s2, p2) := CheckElse(s.els, st.keep, st.flow, !all, s1, p1);
    ArmsGrow(SwitchOn(s.on), s.arms, {}, st.keep, st.flow, st, p0);
    ElseGrows(s.els, st.keep, st.flow, !all, s1, p1);
    QuietSplit(st, s1, s2);
    ArmsDoom(SwitchOn(s.on), s.arms, {}, st.keep, st.flow, st, p0, x, kind, lv);
    ArmsTrack(SwitchOn(s.on), s.arms, {}, st.keep, st.flow, st, p0, x, Inside(kind), lv);
    ElseDoom(s.els, st.keep, st.flow, !all, s1, p1, x, kind, lv);
    ArmsDoomedChain(st, s1, s2, p0, p1, p2, x, kind, lv, s.arms.Arm?, !all || s.els.ElseBody?,
                    ContinuesArms(s.arms), ContinuesElse(s.els));
    if all && s.els.NoElse? && s.on != OnEnum({}) { CoversNeedsArms(s.on, s.arms); }
    RejoinDoomed(st, s2, p2, all && p2.keeps == [], x, kind, lv, Continues(s));
  }

  lemma CoversNeedsArms(on: Selector, arms: Arms)
    requires Covers(on, Labels(arms)) && on != OnEnum({})
    ensures arms.Arm?
  {
    if on.OnEnum? { var m :| m in on.members; assert MemberCase(m) in Labels(arms); }
  }

  // ---- Try ----

  lemma {:induction false} GuardedDoom(s: Stmt, st: State, x: Id, kind: Kind, lv: int)
    requires s.Try? && Located(st, x, Inside(kind), lv) && Doomed(st, x, kind) && Owned(Inside(kind)) && !st.terminated
    requires ResolvedAll(s.body, x, Inside(kind)) && PassableAll(s.body)
    requires ResolvedArms(s.handlers, x, Inside(kind)) && PassableArms(s.handlers)
    requires Quiet(st, CheckGuarded(s, st))
    ensures StillDoomed(st, CheckGuarded(s, st), x, kind, lv, ContinuesAll(s.body) || ContinuesArms(s.handlers))
    decreases s, 0
  {
    hide CheckBlock, CheckArms, Only, TopGrows, BadFlows, OwedKeeps, PassableAll, PassableArms, ResolvedAll,
         ResolvedArms, ContinuesAll, ContinuesArms, MergeKeepPaths, MergeFlowPaths;
    var p0 := Paths([], []);
    assert EnterBranch(st.keep, st.flow, st) == st;
    var s1 := CheckBlock(s.body, st);
    var p1 := AddPath(p0, s1);
    var (s2, p) := CheckArms(Catches, s.handlers, {}, st.keep, st.flow, s1, p1);
    BlockGrows(s.body, st);
    ArmsGrow(Catches, s.handlers, {}, st.keep, st.flow, s1, p1);
    QuietSplit(st, s1, s2);
    BlockDoom(s.body, st, x, kind, lv);
    ArmDoomed(st, s1, p0, x, kind, lv, ContinuesAll(s.body));
    BlockTracks(s.body, st, x, Inside(kind), lv);
    LocatedReset(st, s1, x, Inside(kind), lv);
    ArmsDoom(Catches, s.handlers, {}, st.keep, st.flow, s1, p1, x, kind, lv);
    ArmsDoomedChain(st, s1, s2, p0, p1, p, x, kind, lv, true, s.handlers.Arm?, ContinuesAll(s.body),
                    ContinuesArms(s.handlers));
    RejoinDoomed(st, s2, p, p.keeps == [], x, kind, lv, ContinuesAll(s.body) || ContinuesArms(s.handlers));
  }

  /** When no path comes out of the body and the catch clauses, the tables are those from before. */
  lemma GuardedStops(s: Stmt, st: State)
    requires s.Try?
    ensures var g := CheckGuarded(s, st); g.terminated ==> g.keep == st.keep && g.flow == st.flow
  {
    hide CheckBlock, CheckArms;
    var s1 := CheckBlock(s.body, EnterBranch(st.keep, st.flow, st));
    var p1 := AddPath(Paths([], []), s1);
    ArmsLevel(s.handlers, {}, st.keep, st.flow, s1, p1);
  }

  lemma {:induction false} ArmsLevel(arms: Arms, seen: set<Label>, keep: KeepMap, flow: FlowMap, st: State, p: Paths)
    requires |p.keeps| == |p.flows|
    ensures var q := CheckArms(Catches, arms, seen, keep, flow, st, p).1; |q.keeps| == |q.flows|
    decreases arms
  {
    hide CheckBlock, EnterArm, LeaveArm;
    if arms.Arm? {
      var s1 := CheckBlock(arms.body, EnterArm(Catches, arms.tag, seen, EnterBranch(keep, flow, st)));
      ArmsLevel(arms.rest, seen + {arms.tag}, keep, flow, LeaveArm(Catches, s1), AddPath(p, s1));
    }
  }

  /** Doomed before a finally block and in it. */
  lemma FinallyDoomed(st: State, g: State, f0: State, f1: State, r: State, x: Id, kind: Kind, lv: int, c: bool,
                      c': bool)
    requires Ready(st) && Ready(g) && Ready(f1) && Frame(st, g) && Frame(f0, f1)
    requires f0 == g.(terminated := false, finallyDepth := g.finallyDepth + 1)
    requires r == f1.(finallyDepth := g.finallyDepth, terminated := f1.terminated || g.terminated)
    requires StillDoomed(st, g, x, kind, lv, c) && StillDoomed(f0, f1, x, kind, lv, c')
    ensures StillDoomed(st, r, x, kind, lv, c || c')
  {
    NewTransitive(st, g, f1.(finallyDepth := g.finallyDepth));
    SameExits(g, f0, f1, f1);
    SameExits(st, st, f1.(finallyDepth := g.finallyDepth), r);
    SameExits(g, g, f1.(finallyDepth := g.finallyDepth), f1);
  }

  lemma {:induction false} TryDoom(s: Stmt, st: State, x: Id, kind: Kind, lv: int)
    requires s.Try? && Located(st, x, Inside(kind), lv) && Doomed(st, x, kind) && Owned(Inside(kind)) && !st.terminated
    requires Resolved(s, x, Inside(kind)) && Passable(s)
    requires Quiet(st, CheckTry(s, st))
    ensures StillDoomed(st, CheckTry(s, st), x, kind, lv, Continues(s))
    decreases s, 1
  {
    hide CheckGuarded, CheckBlock, Only, TopGrows, BadFlows, OwedKeeps, PassableAll, PassableArms, ResolvedAll,
         ResolvedArms, ContinuesAll, ContinuesArms, MentionsAll, MentionsArms;
    var g := CheckGuarded(s, st);
    GuardedGrows(s, st);
    FinallyGrows(s.fin, g);
    QuietSplit(st, g, CheckFinally(s.fin, g));
    GuardedDoom(s, st, x, kind, lv);
    GuardedTracks(s, st, x, Inside(kind), lv);
    GuardedStops(s, st);
    match s.fin
    case NoElse =>
    case ElseBody(body) =>
      var f0 := g.(terminated := false, finallyDepth := g.finallyDepth + 1);
      var f1 := CheckBlock(body, f0);
      SameTables(g, f0, x, Inside(kind), lv);
      BlockGrows(body, f0);
      BlockDoom(body, f0, x, kind, lv);
      FinallyDoomed(st, g, f0, f1, CheckFinally(s.fin, g), x, kind, lv,
                    ContinuesAll(s.body) || ContinuesArms(s.handlers), ContinuesAll(body));
  }
}
