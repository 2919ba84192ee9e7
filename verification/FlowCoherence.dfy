/** The two tables stay in step on every local: which pairs of keep state and value state
    can occur, at every program point and in every state recorded for a loop. */
module FlowCoherence {
  import opened FlowSyntax
  import opened FlowState
  import opened FlowChecker
  import opened FlowFrame
  import opened FlowTracking
  import opened FlowFragment
  import opened FlowUntouched
  import opened FlowJoin

  /** The value state alone. */
  predicate FlowOk(kind: Kind, nulled: bool, f: Flow) {
    match kind
    case RawOwner =>
      f.validity in {LivePointer, DeletedPointer, MaybeInvalid} || (nulled && f.validity in {Null, MaybeNull})
    case Task => f.validity == NotPointer && f.task in {Pending, Awaited, MaybePending}
    case Plain => f.validity == NotPointer && f.task == NotTask
    case Exception => true
  }

  /** Both tables: a pointer the value table calls deleted (live) is deleted (not deleted)
      in the keep table. */
  predicate PairOk(keep: KeepMap, flow: FlowMap, x: Id, kind: Kind, nulled: bool) {
    && x in flow && FlowOk(kind, nulled, flow[x])
    && (kind == RawOwner ==>
          && x in keep
          && (flow[x].validity == DeletedPointer ==> keep[x] == Deleted)
          && (flow[x].validity == LivePointer ==> keep[x] != Deleted))
  }

  predicate Coherent(st: State, x: Id, kind: Kind, nulled: bool) { PairOk(st.keep, st.flow, x, kind, nulled) }

  /** The recorded states.  A continue records only the value table, so the two lists need
      not line up; still, if all recorded value states are deleted, so are the keep states. */
  ghost predicate ExitsOk(keeps: seq<KeepMap>, flows: seq<FlowMap>, x: Id, kind: Kind, nulled: bool) {
    && (forall j | 0 <= j < |flows| :: x in flows[j] && FlowOk(kind, nulled, flows[j][x]))
    && (kind == RawOwner ==>
          && (forall j | 0 <= j < |keeps| :: x in keeps[j])
          && ((forall j | 0 <= j < |flows| :: flows[j][x].validity == DeletedPointer) ==> AllDeleted(keeps, x)))
  }

  ghost predicate AllDeleted(keeps: seq<KeepMap>, x: Id) {
    forall j | 0 <= j < |keeps| :: x in keeps[j] && keeps[j][x] == Deleted
  }

  ghost predicate ExitsCoherent(st: State, x: Id, kind: Kind, nulled: bool) {
    |st.breakFlows| > 0 && |st.breakKeeps| > 0 ==>
      ExitsOk(Last(st.breakKeeps), Last(st.breakFlows), x, kind, nulled)
  }

  ghost predicate ExitsDeleted(st: State, x: Id) {
    |st.breakKeeps| > 0 ==> AllDeleted(Last(st.breakKeeps), x)
  }

  /** What a visit keeps of `x`.  `still` says that the visited text assigns no value to it:
      then a deleted owner stays deleted on every way out. */
  ghost predicate Steps(st: State, r: State, x: Id, kind: Kind, nulled: bool, still: bool) {
    && Coherent(r, x, kind, nulled)
    && (ExitsCoherent(st, x, kind, nulled) ==> ExitsCoherent(r, x, kind, nulled))
    && (still && kind == RawOwner && x in st.keep && st.keep[x] == Deleted ==>
          r.keep[x] == Deleted && (ExitsDeleted(st, x) ==> ExitsDeleted(r, x)))
  }

  ghost predicate PathsOk(p: Paths, x: Id, kind: Kind, nulled: bool) {
    && |p.keeps| == |p.flows|
    && forall i | 0 <= i < |p.keeps| :: PairOk(p.keeps[i], p.flows[i], x, kind, nulled)
  }

  // ---- Joins of coherent paths ----

  lemma {:induction false} JoinFlowOk(x: Id, base: Flow, flows: seq<FlowMap>, kind: Kind, nulled: bool)
    requires |flows| > 0
    requires forall j | 0 <= j < |flows| :: FlowOk(kind, nulled, FlowAt(flows[j], x, base))
    ensures FlowOk(kind, nulled, JoinFlow(x, base, flows))
  {
    if |flows| > 1 {
      var front := ButLast(flows);
      assert forall i | 0 <= i < |front| :: flows[i] == front[i];
      JoinFlowOk(x, base, front, kind, nulled);
    }
  }

  lemma JoinPairs(keep: KeepMap, flow: FlowMap, keeps: seq<KeepMap>, flows: seq<FlowMap>,
                  x: Id, kind: Kind, nulled: bool)
    requires PairOk(keep, flow, x, kind, nulled)
    requires |flows| > 0 && |keeps| > 0
    requires ExitsOk(keeps, flows, x, kind, nulled)
    requires kind == RawOwner && (forall j | 0 <= j < |flows| :: flows[j][x].validity == LivePointer) ==>
               exists j :: 0 <= j < |keeps| && keeps[j][x] != Deleted
    ensures PairOk(MergeKeepPaths(keep, keeps), MergeFlowPaths(flow, flows), x, kind, nulled)
    ensures kind == RawOwner && AllDeleted(keeps, x) ==> MergeKeepPaths(keep, keeps)[x] == Deleted
  {
    JoinFlowOk(x, flow[x], flows, kind, nulled);
    if kind == RawOwner {
      var f, k := JoinFlow(x, flow[x], flows), JoinKeep(x, keep[x], keeps);
      JoinFlowIsLeast(x, flow[x], flows);
      assert forall j | 0 <= j < |flows| :: FlowBelow(FlowAt(flows[j], x, flow[x]), f);
      JoinKeepIsLeast(x, keep[x], keeps);
      assert forall j | 0 <= j < |keeps| :: KeepBelow(KeepAt(keeps[j], x, keep[x]), k);
      if AllDeleted(keeps, x) { assert KeepBound(x, keep[x], keeps, Deleted); }
    }
  }

  /** The branches of an if: aligned pairs. */
  lemma JoinAligned(keep: KeepMap, flow: FlowMap, p: Paths, x: Id, kind: Kind, nulled: bool)
    requires PairOk(keep, flow, x, kind, nulled) && PathsOk(p, x, kind, nulled)
    ensures PairOk(MergeKeepPaths(keep, p.keeps), MergeFlowPaths(flow, p.flows), x, kind, nulled)
    ensures kind == RawOwner && keep[x] == Deleted && AllDeleted(p.keeps, x) ==>
              MergeKeepPaths(keep, p.keeps)[x] == Deleted
  {
    if |p.keeps| > 0 {
      assert PairOk(p.keeps[0], p.flows[0], x, kind, nulled);
      JoinPairs(keep, flow, p.keeps, p.flows, x, kind, nulled);
    }
  }

  // ---- One operation ----

  lemma OpSteps(op: Op, y: Id, st: State, x: Id, kind: Kind, nulled: bool)
    requires Ready(st) && Coherent(st, x, kind, nulled)
    requires Resolved(Do(op, y), x, Inside(kind)) && Steady(Do(op, y), x, kind, nulled)
    requires x in st.keep <==> kind == RawOwner
    ensures Steps(st, CheckOp(op, y, st), x, kind, nulled, !Mentions(Do(op, y), x, Assigning))
  {
    hide CheckOp, PairOk, ExitsOk;
    if y == x { OwnOpSteps(op, st, x, kind, nulled); } else { OtherOpSteps(op, y, st, x, kind, nulled); }
  }

  lemma OwnOpSteps(op: Op, st: State, x: Id, kind: Kind, nulled: bool)
    requires Coherent(st, x, kind, nulled) && !Declares(op) && kind == KindOf(op)
    requires (kind == RawOwner && Does(op, Nulling) ==> nulled) && (x in st.keep <==> kind == RawOwner)
    ensures Steps(st, CheckOp(op, x, st), x, kind, nulled, !Does(op, Assigning))
  {
    hide DeleteReports, ReadReports, DerefReports, AwaitReports, When, ExitsOk, AllDeleted;
  }

  lemma OtherOpSteps(op: Op, y: Id, st: State, x: Id, kind: Kind, nulled: bool)
    requires Ready(st) && Coherent(st, x, kind, nulled) && y != x
    ensures Steps(st, CheckOp(op, y, st), x, kind, nulled, true)
  {
    hide DeleteReports, ReadReports, DerefReports, AwaitReports, When, ExitsOk, AllDeleted, FlowOk;
  }

  /** A declaration puts the two tables in step. */
  lemma DeclarationCoherent(op: Op, st: State, x: Id, nulled: bool)
    requires Ready(st) && Declares(op)
    ensures Coherent(CheckOp(op, x, st), x, KindOf(op), nulled)
  {
  }

  lemma ExitsAppend(keeps: seq<KeepMap>, flows: seq<FlowMap>, keep: KeepMap, flow: FlowMap,
                    x: Id, kind: Kind, nulled: bool)
    requires PairOk(keep, flow, x, kind, nulled)
    ensures ExitsOk(keeps, flows, x, kind, nulled) ==> ExitsOk(keeps, flows + [flow], x, kind, nulled)
    ensures ExitsOk(keeps, flows, x, kind, nulled) ==> ExitsOk(keeps + [keep], flows + [flow], x, kind, nulled)
    ensures kind == RawOwner && keep[x] == Deleted && AllDeleted(keeps, x) ==> AllDeleted(keeps + [keep], x)
  {
    var fs := flows + [flow];
    assert fs[|flows|] == flow;
    assert forall j | 0 <= j < |flows| :: fs[j] == flows[j];
  }

  lemma LoopExitSteps(isBreak: bool, st: State, x: Id, kind: Kind, nulled: bool)
    requires Ready(st) && Coherent(st, x, kind, nulled)
    ensures Steps(st, CheckLoopExit(isBreak, st), x, kind, nulled, true)
  {
    LoopExitGrows(isBreak, st);
    if |st.loopDepths| > 0 {
      LoopExitRecords(isBreak, st);
      ExitsAppend(Last(st.breakKeeps), Last(st.breakFlows), st.keep, st.flow, x, kind, nulled);
    }
  }

  // ---- Statements ----

  /** What keeps the tables of a raw owner in step: it is set to null only where null is
      reckoned with, and no do-while changes it. */
  predicate Steady(s: Stmt, x: Id, kind: Kind, nulled: bool) {
    kind == RawOwner ==> (Mentions(s, x, Nulling) ==> nulled) && BottomsLook(s, x)
  }

  predicate SteadyAll(ss: Stmts, x: Id, kind: Kind, nulled: bool) {
    kind == RawOwner ==> (MentionsAll(ss, x, Nulling) ==> nulled) && BottomsLookAll(ss, x)
  }

  predicate SteadyArms(arms: Arms, x: Id, kind: Kind, nulled: bool) {
    kind == RawOwner ==> (MentionsArms(arms, x, Nulling) ==> nulled) && BottomsLookArms(arms, x)
  }

  predicate SteadyElse(els: Else, x: Id, kind: Kind, nulled: bool) {
    kind == RawOwner ==> (MentionsElse(els, x, Nulling) ==> nulled) && BottomsLookElse(els, x)
  }

  lemma StepsTransitive(a: State, b: State, c: State, x: Id, kind: Kind, nulled: bool, m: bool, n: bool)
    requires Steps(a, b, x, kind, nulled, m) && Steps(b, c, x, kind, nulled, n)
    ensures Steps(a, c, x, kind, nulled, m && n)
  {
  }

  lemma StaySteps(st: State, x: Id, kind: Kind, nulled: bool)
    requires Coherent(st, x, kind, nulled)
    ensures Steps(st, st, x, kind, nulled, true)
  {
  }

  lemma FunctionExitSteps(st: State, x: Id, kind: Kind, nulled: bool)
    requires Coherent(st, x, kind, nulled)
    ensures Steps(st, CheckFunctionExit(st), x, kind, nulled, true)
  {
    hide KeepScopeReports, TaskScopeReports;
  }

  lemma NoPathsOk(x: Id, kind: Kind, nulled: bool)
    ensures PathsOk(Paths([], []), x, kind, nulled) && AllDeleted([], x)
  {
  }

  lemma {:induction false} CheckSteps(s: Stmt, st: State, x: Id, kind: Kind, lv: int, nulled: bool)
    requires Located(st, x, Inside(kind), lv) && Coherent(st, x, kind, nulled)
    requires Resolved(s, x, Inside(kind)) && Steady(s, x, kind, nulled)
    ensures Steps(st, Check(s, st), x, kind, nulled, !Mentions(s, x, Assigning))
    decreases s, 2
  {
    hide CheckOp, CheckBlock, CheckIf, CheckSwitch, CheckLoop, CheckTry, CheckLoopExit, CheckFunctionExit, Only,
         MentionsAll, MentionsArms, MentionsElse, PairOk, Steps, BottomsLookAll, BottomsLookArms, BottomsLookElse;
    match s
    case Do(op, y) => OpSteps(op, y, st, x, kind, nulled);
    case Call(_) => StaySteps(st, x, kind, nulled);
    case Block(body) => BlockSteps(body, st, x, kind, lv, nulled);
    case If(_, _) => IfSteps(s, st, x, kind, lv, nulled);
    case Switch(_, _, _, _) => SwitchSteps(s, st, x, kind, lv, nulled);
    case While(body) => WhileSteps(body, st, x, kind, lv, nulled);
    case DoWhile(body) => DoWhileSteps(body, st, x, kind, lv, nulled);
    case Try(_, _, _) => TrySteps(s, st, x, kind, lv, nulled);
    case Throw | Return => FunctionExitSteps(st, x, kind, nulled);
    case Break => LoopExitSteps(true, st, x, kind, nulled);
    case Continue => LoopExitSteps(false, st, x, kind, nulled);
  }

  lemma {:induction false} AllSteps(ss: Stmts, st: State, x: Id, kind: Kind, lv: int, nulled: bool)
    requires Located(st, x, Inside(kind), lv) && Coherent(st, x, kind, nulled)
    requires ResolvedAll(ss, x, Inside(kind)) && SteadyAll(ss, x, kind, nulled)
    ensures Steps(st, CheckAll(ss, st), x, kind, nulled, !MentionsAll(ss, x, Assigning))
    decreases ss, 0
  {
    match ss
    case End =>
    case Then(s, tail) =>
      var s1 := Check(s, st);
      CheckSteps(s, st, x, kind, lv, nulled);
      CheckTracks(s, st, x, Inside(kind), lv);
      if !s1.terminated {
        AllSteps(tail, s1, x, kind, lv, nulled);
        StepsTransitive(st, s1, CheckAll(tail, s1), x, kind, nulled,
                        !Mentions(s, x, Assigning), !MentionsAll(tail, x, Assigning));
      }
  }

  lemma PopSteps(st: State, x: Id, kind: Kind, lv: int, nulled: bool)
    requires Located(st, x, Inside(kind), lv) && lv < Top(st) && |st.flowScopes| > 1
    requires Coherent(st, x, kind, nulled)
    ensures Steps(st, PopScopes(st), x, kind, nulled, true)
  {
    LocatedPop(st, x, Inside(kind), lv);
    assert x !in IdsOf(Last(st.flowScopes)) && x !in IdsOf(Last(st.keepScopes));
  }

  lemma {:induction false} BlockSteps(body: Stmts, st: State, x: Id, kind: Kind, lv: int, nulled: bool)
    requires Located(st, x, Inside(kind), lv) && Coherent(st, x, kind, nulled)
    requires ResolvedAll(body, x, Inside(kind)) && SteadyAll(body, x, kind, nulled)
    ensures Steps(st, CheckBlock(body, st), x, kind, nulled, !MentionsAll(body, x, Assigning))
    decreases body, 1
  {
    var s0 := PushScopes(st);
    LocatedPush(st, x, Inside(kind), lv);
    AllGrows(body, s0);
    AllTracks(body, s0, x, Inside(kind), lv);
    AllSteps(body, s0, x, kind, lv, nulled);
    PopSteps(CheckAll(body, s0), x, kind, lv, nulled);
  }

  lemma EnterLoopLocated(st: State, x: Id, kind: Kind, lv: int, nulled: bool)
    requires Located(st, x, Inside(kind), lv) && Coherent(st, x, kind, nulled)
    ensures Located(EnterLoop(st), x, Inside(kind), lv) && Coherent(EnterLoop(st), x, kind, nulled)
    ensures ExitsCoherent(EnterLoop(st), x, kind, nulled) && ExitsDeleted(EnterLoop(st), x)
  {
  }

  /** The exits of a loop: its entry state for a loop tested at the top, the end of the
      body, and what was recorded inside. */
  lemma LeaveSteps(st: State, first: Paths, s1: State, x: Id, kind: Kind, nulled: bool, still: bool)
    requires Ready(st) && Coherent(st, x, kind, nulled)
    requires Ready(s1) && Frame(EnterLoop(st), s1)
    requires Coherent(s1, x, kind, nulled) && ExitsCoherent(s1, x, kind, nulled)
    requires still && kind == RawOwner && st.keep[x] == Deleted ==> s1.keep[x] == Deleted && ExitsDeleted(s1, x)
    requires first == Paths([st.keep], [st.flow]) || (first == Paths([], []) && kind != RawOwner)
    ensures Steps(st, LeaveLoop(st.keep, st.flow, first, s1), x, kind, nulled, still)
  {
    hide MergeKeepPaths, MergeFlowPaths, FlowOk, TopGrows;
    LeaveLists(st, first, s1);
    var body := AddPath(first, s1);
    assert PathsOk(body, x, kind, nulled);
    LeaveJoins(st, first, body, s1, x, kind, nulled);
  }

  lemma LeaveJoins(st: State, first: Paths, body: Paths, s1: State, x: Id, kind: Kind, nulled: bool)
    requires Coherent(st, x, kind, nulled) && |s1.breakKeeps| > 0 && |s1.breakFlows| > 0 && |s1.loopDepths| > 0
    requires body == AddPath(first, s1) && PathsOk(body, x, kind, nulled) && ExitsCoherent(s1, x, kind, nulled)
    requires first == Paths([st.keep], [st.flow]) || (first == Paths([], []) && kind != RawOwner)
    ensures var r := LeaveLoop(st.keep, st.flow, first, s1);
            && Coherent(r, x, kind, nulled)
            && (kind == RawOwner && AllDeleted(body.keeps, x) && ExitsDeleted(s1, x) ==> r.keep[x] == Deleted)
  {
    var keeps := body.keeps + Last(s1.breakKeeps);
    var flows := body.flows + Last(s1.breakFlows);
    ExitPaths(body, s1, keeps, flows, x, kind, nulled);
    if kind == RawOwner {
      assert keeps[0] == st.keep && flows[0] == st.flow;
      JoinPairs(st.keep, st.flow, keeps, flows, x, kind, nulled);
    } else {
      JoinFlows(st.keep, st.flow, if keeps == [] then [st.keep] else keeps,
                if flows == [] then [st.flow] else flows, x, kind, nulled);
    }
  }

  lemma JoinFlows(keep: KeepMap, flow: FlowMap, keeps: seq<KeepMap>, flows: seq<FlowMap>,
                  x: Id, kind: Kind, nulled: bool)
    requires PairOk(keep, flow, x, kind, nulled) && kind != RawOwner
    requires |flows| > 0 && forall j | 0 <= j < |flows| :: x in flows[j] && FlowOk(kind, nulled, flows[j][x])
    ensures PairOk(MergeKeepPaths(keep, keeps), MergeFlowPaths(flow, flows), x, kind, nulled)
  {
    JoinFlowOk(x, flow[x], flows, kind, nulled);
  }

  lemma ExitPaths(body: Paths, s1: State, ks: seq<KeepMap>, fs: seq<FlowMap>, x: Id, kind: Kind, nulled: bool)
    requires |s1.breakKeeps| > 0 && |s1.breakFlows| > 0
    requires PathsOk(body, x, kind, nulled) && ExitsCoherent(s1, x, kind, nulled)
    requires ks == body.keeps + Last(s1.breakKeeps) && fs == body.flows + Last(s1.breakFlows)
    ensures ExitsOk(ks, fs, x, kind, nulled)
    ensures AllDeleted(body.keeps, x) && ExitsDeleted(s1, x) ==> AllDeleted(ks, x)
  {
    hide PathsOk, ExitsOk, AllDeleted;
    PathsAreExits(body, x, kind, nulled);
    ExitsJoined(body.keeps, body.flows, Last(s1.breakKeeps), Last(s1.breakFlows), x, kind, nulled);
  }

  lemma PathsAreExits(p: Paths, x: Id, kind: Kind, nulled: bool)
    requires PathsOk(p, x, kind, nulled)
    ensures ExitsOk(p.keeps, p.flows, x, kind, nulled)
  {
    hide FlowOk;
    forall j | 0 <= j < |p.flows|
      ensures x in p.flows[j] && FlowOk(kind, nulled, p.flows[j][x])
      ensures kind == RawOwner ==>
                x in p.keeps[j] && (p.flows[j][x].validity == DeletedPointer ==> p.keeps[j][x] == Deleted)
    {
      assert PairOk(p.keeps[j], p.flows[j], x, kind, nulled);
    }
  }

  lemma ExitsJoined(ks: seq<KeepMap>, fs: seq<FlowMap>, ks': seq<KeepMap>, fs': seq<FlowMap>, x: Id, kind: Kind,
                    nulled: bool)
    requires ExitsOk(ks, fs, x, kind, nulled) && ExitsOk(ks', fs', x, kind, nulled)
    ensures ExitsOk(ks + ks', fs + fs', x, kind, nulled)
    ensures AllDeleted(ks, x) && AllDeleted(ks', x) ==> AllDeleted(ks + ks', x)
  {
    hide FlowOk;
    if forall j | 0 <= j < |fs + fs'| :: x in (fs + fs')[j] && (fs + fs')[j][x].validity == DeletedPointer {
      assert forall j | 0 <= j < |fs| :: fs[j] == (fs + fs')[j];
      assert forall j | 0 <= j < |fs'| :: fs'[j] == (fs + fs')[|fs| + j];
    }
  }

  lemma {:induction false} WhileSteps(body: Stmts, st: State, x: Id, kind: Kind, lv: int, nulled: bool)
    requires Located(st, x, Inside(kind), lv) && Coherent(st, x, kind, nulled)
    requires ResolvedAll(body, x, Inside(kind)) && SteadyAll(body, x, kind, nulled)
    ensures Steps(st, Check(While(body), st), x, kind, nulled, !MentionsAll(body, x, Assigning))
    decreases body, 2
  {
    hide CheckBlock, LeaveLoop, MentionsAll, Only, TopGrows;
    EnterLoopLocated(st, x, kind, lv, nulled);
    BlockSteps(body, EnterLoop(st), x, kind, lv, nulled);
    BlockGrows(body, EnterLoop(st));
    LeaveSteps(st, Paths([st.keep], [st.flow]), CheckBlock(body, EnterLoop(st)), x, kind, nulled,
               !MentionsAll(body, x, Assigning));
  }

  lemma {:induction false} DoWhileSteps(body: Stmts, st: State, x: Id, kind: Kind, lv: int, nulled: bool)
    requires Located(st, x, Inside(kind), lv) && Coherent(st, x, kind, nulled)
    requires ResolvedAll(body, x, Inside(kind)) && Steady(DoWhile(body), x, kind, nulled)
    ensures Steps(st, Check(DoWhile(body), st), x, kind, nulled, !MentionsAll(body, x, Assigning))
    decreases body, 2
  {
    hide CheckBlock, LeaveLoop, MentionsAll, Only, TopGrows;
    BlockGrows(body, EnterLoop(st));
    if kind == RawOwner {
      LoopUntouched(body, Paths([], []), st, x, kind, lv);
      LeaveLists(st, Paths([], []), CheckBlock(body, EnterLoop(st)));
      UntouchedSteps(st, CheckLoop(body, Paths([], []), st), x, kind, nulled, !MentionsAll(body, x, Assigning));
    } else {
      EnterLoopLocated(st, x, kind, lv, nulled);
      BlockSteps(body, EnterLoop(st), x, kind, lv, nulled);
      LeaveSteps(st, Paths([], []), CheckBlock(body, EnterLoop(st)), x, kind, nulled,
                 !MentionsAll(body, x, Assigning));
    }
  }

  lemma UntouchedSteps(st: State, r: State, x: Id, kind: Kind, nulled: bool, still: bool)
    requires Coherent(st, x, kind, nulled) && Untouched(st, r, x, kind)
    requires r.breakFlows == st.breakFlows && r.breakKeeps == st.breakKeeps
    ensures Steps(st, r, x, kind, nulled, still)
  {
  }

  /** What the branches of a statement keep of `x`, and what the collected paths are like. */
  ghost predicate ArmsStep(st: State, r: State, p: Paths, q: Paths, keep: KeepMap,
                           x: Id, kind: Kind, nulled: bool, still: bool) {
    && (PathsOk(p, x, kind, nulled) ==> PathsOk(q, x, kind, nulled))
    && (ExitsCoherent(st, x, kind, nulled) ==> ExitsCoherent(r, x, kind, nulled))
    && (still && kind == RawOwner && x in keep && keep[x] == Deleted ==>
          && (AllDeleted(p.keeps, x) ==> AllDeleted(q.keeps, x))
          && (ExitsDeleted(st, x) ==> ExitsDeleted(r, x)))
  }

  lemma EnterArmSteps(kind: ArmKind, tag: Label, seen: set<Label>, st: State, x: Id, k: Kind, nulled: bool)
    requires tag != Caught(x) && Coherent(st, x, k, nulled) && Ready(st)
    ensures Steps(st, EnterArm(kind, tag, seen, st), x, k, nulled, true)
  {
    hide CheckLabel, RegisterFlow;
    match kind
    case IfChain =>
    case SwitchOn(on) => LabelOnly(on, tag, seen, st);
    case Catches => if tag.Caught? { CatchOnly(tag.x, st); }
  }

  lemma {:induction false} ArmsSteps(kind: ArmKind, arms: Arms, seen: set<Label>, keep: KeepMap, flow: FlowMap,
                                     st: State, p: Paths, x: Id, k: Kind, lv: int, nulled: bool)
    requires Located(st.(keep := keep, flow := flow), x, Inside(k), lv) && PairOk(keep, flow, x, k, nulled)
    requires ResolvedArms(arms, x, Inside(k)) && SteadyArms(arms, x, k, nulled)
    ensures var (r, q) := CheckArms(kind, arms, seen, keep, flow, st, p);
            ArmsStep(st, r, p, q, keep, x, k, nulled, !MentionsArms(arms, x, Assigning))
    decreases arms, 0
  {
    hide CheckBlock, EnterArm, LeaveArm, Only, MentionsAll, ResolvedAll, BottomsLookAll, ExitsOk, AddPath, PathsOk,
         AllDeleted, Steps;
    match arms
    case NoArms =>
    case Arm(tag, body, rest) =>
      var s0 := EnterBranch(keep, flow, st);
      var s1 := EnterArm(kind, tag, seen, s0);
      var s2 := CheckBlock(body, s1);
      ArmSteps(kind, tag, body, seen, keep, flow, st, x, k, lv, nulled);
      ArmTracks(kind, tag, body, seen, keep, flow, st, x, Inside(k), lv);
      var s3, p1 := LeaveArm(kind, s2), AddPath(p, s2);
      ArmAdds(st, s0, s2, s3, p, keep, x, k, nulled, !MentionsAll(body, x, Assigning));
      ArmsSteps(kind, rest, seen + {tag}, keep, flow, s3, p1, x, k, lv, nulled);
      var (r, q) := CheckArms(kind, rest, seen + {tag}, keep, flow, s3, p1);
      ArmsChain(st, s3, r, p, p1, q, keep, x, k, nulled,
                !MentionsAll(body, x, Assigning), !MentionsArms(rest, x, Assigning));
  }

  lemma ArmAdds(st: State, s0: State, s2: State, s3: State, p: Paths, keep: KeepMap, x: Id, k: Kind, nulled: bool,
                still: bool)
    requires s0 == st.(keep := keep, flow := s0.flow, terminated := false)
    requires Steps(s0, s2, x, k, nulled, still) && Steps(s0, s3, x, k, nulled, still)
    ensures ArmsStep(st, s3, p, AddPath(p, s2), keep, x, k, nulled, still)
  {
  }

  lemma ArmsChain(a: State, b: State, c: State, p: Paths, q: Paths, r: Paths, keep: KeepMap,
                  x: Id, k: Kind, nulled: bool, m: bool, n: bool)
    requires ArmsStep(a, b, p, q, keep, x, k, nulled, m) && ArmsStep(b, c, q, r, keep, x, k, nulled, n)
    ensures ArmsStep(a, c, p, r, keep, x, k, nulled, m && n)
  {
  }

  lemma {:induction false} ArmSteps(kind: ArmKind, tag: Label, body: Stmts, seen: set<Label>,
                                    keep: KeepMap, flow: FlowMap, st: State, x: Id, k: Kind, lv: int, nulled: bool)
    requires Located(st.(keep := keep, flow := flow), x, Inside(k), lv) && PairOk(keep, flow, x, k, nulled)
    requires tag != Caught(x)
    requires ResolvedAll(body, x, Inside(k)) && SteadyAll(body, x, k, nulled)
    ensures var s0 := EnterBranch(keep, flow, st);
            var s2 := CheckBlock(body, EnterArm(kind, tag, seen, s0));
            && Steps(s0, s2, x, k, nulled, !MentionsAll(body, x, Assigning))
            && Steps(s0, LeaveArm(kind, s2), x, k, nulled, !MentionsAll(body, x, Assigning))
    decreases body, 2
  {
    hide CheckBlock, EnterArm, Only, MentionsAll, ResolvedAll, BottomsLookAll, ExitsOk, PairOk, PopScopes;
    var s0 := EnterBranch(keep, flow, st);
    var s1 := EnterArm(kind, tag, seen, s0);
    var s2 := CheckBlock(body, s1);
    var still := !MentionsAll(body, x, Assigning);
    EnterArmTracks(kind, tag, seen, s0, x, Inside(k), lv);
    EnterArmSteps(kind, tag, seen, s0, x, k, nulled);
    EnterArmGrows(kind, tag, seen, s0);
    BlockSteps(body, s1, x, k, lv, nulled);
    BlockTracks(body, s1, x, Inside(k), lv);
    BlockGrows(body, s1);
    StepsTransitive(s0, s1, s2, x, k, nulled, true, still);
    if kind.Catches? {
      PopSteps(s2, x, k, lv, nulled);
      StepsTransitive(s0, s2, PopScopes(s2), x, k, nulled, still, true);
    }
  }

  lemma {:induction false} ElseSteps(els: Else, keep: KeepMap, flow: FlowMap, open: bool, st: State, p: Paths,
                                     x: Id, k: Kind, lv: int, nulled: bool)
    requires Located(st.(keep := keep, flow := flow), x, Inside(k), lv) && PairOk(keep, flow, x, k, nulled)
    requires ResolvedElse(els, x, Inside(k)) && SteadyElse(els, x, k, nulled)
    ensures var (r, q) := CheckElse(els, keep, flow, open, st, p);
            ArmsStep(st, r, p, q, keep, x, k, nulled, !MentionsElse(els, x, Assigning))
    decreases els, 0
  {
    hide CheckBlock, Only, MentionsAll, ResolvedAll, BottomsLookAll, FlowOk, ExitsOk;
    if els.ElseBody? {
      BlockSteps(els.body, EnterBranch(keep, flow, st), x, k, lv, nulled);
    }
  }

  lemma {:induction false} IfSteps(s: Stmt, st: State, x: Id, kind: Kind, lv: int, nulled: bool)
    requires s.If? && Located(st, x, Inside(kind), lv) && Coherent(st, x, kind, nulled)
    requires Resolved(s, x, Inside(kind)) && Steady(s, x, kind, nulled)
    ensures Steps(st, CheckIf(s, st), x, kind, nulled, !Mentions(s, x, Assigning))
    decreases s, 0
  {
    hide CheckArms, CheckElse, Only, MentionsArms, MentionsElse, PairOk, ExitsOk, ResolvedArms, ResolvedElse,
         BottomsLookArms, BottomsLookElse, MergeKeepPaths, MergeFlowPaths, PathsOk, AllDeleted;
    NoPathsOk(x, kind, nulled);
    var (s1, p1) := CheckArms(IfChain, s.arms, {}, st.keep, st.flow, st, Paths([], []));
    ArmsTrack(IfChain, s.arms, {}, st.keep, st.flow, st, Paths([], []), x, Inside(kind), lv);
    ArmsSteps(IfChain, s.arms, {}, st.keep, st.flow, st, Paths([], []), x, kind, lv, nulled);
    ElseSteps(s.els, st.keep, st.flow, true, s1, p1, x, kind, lv, nulled);
    var (s2, p2) := CheckElse(s.els, st.keep, st.flow, true, s1, p1);
    JoinAligned(st.keep, st.flow, p2, x, kind, nulled);
  }

  lemma {:induction false} SwitchSteps(s: Stmt, st: State, x: Id, kind: Kind, lv: int, nulled: bool)
    requires s.Switch? && Located(st, x, Inside(kind), lv) && Coherent(st, x, kind, nulled)
    requires Resolved(s, x, Inside(kind)) && Steady(s, x, kind, nulled)
    ensures Steps(st, CheckSwitch(s, st), x, kind, nulled, !Mentions(s, x, Assigning))
    decreases s, 0
  {
    hide CheckArms, CheckElse, Covers, Only, MentionsArms, MentionsElse, PairOk, ExitsOk, ResolvedArms, ResolvedElse,
         BottomsLookArms, BottomsLookElse, MergeKeepPaths, MergeFlowPaths, Labels, PathsOk, AllDeleted;
    NoPathsOk(x, kind, nulled);
    var (s1, p1) := CheckArms(SwitchOn(s.on), s.arms, {}, st.keep, st.flow, st, Paths([], []));
    ArmsTrack(SwitchOn(s.on), s.arms, {}, st.keep, st.flow, st, Paths([], []), x, Inside(kind), lv);
    ArmsSteps(SwitchOn(s.on), s.arms, {}, st.keep, st.flow, st, Paths([], []), x, kind, lv, nulled);
    var all := s.els.ElseBody? || Covers(s.on, Labels(s.arms));
    ElseSteps(s.els, st.keep, st.flow, !all, s1, p1, x, kind, lv, nulled);
    var (s2, p2) := CheckElse(s.els, st.keep, st.flow, !all, s1, p1);
    JoinAligned(st.keep, st.flow, p2, x, kind, nulled);
  }

  lemma {:induction false} TrySteps(s: Stmt, st: State, x: Id, kind: Kind, lv: int, nulled: bool)
    requires s.Try? && Located(st, x, Inside(kind), lv) && Coherent(st, x, kind, nulled)
    requires Resolved(s, x, Inside(kind)) && Steady(s, x, kind, nulled)
    ensures Steps(st, CheckTry(s, st), x, kind, nulled, !Mentions(s, x, Assigning))
    decreases s, 1
  {
    hide CheckGuarded, CheckFinally, Only, MentionsAll, MentionsArms, MentionsElse;
    var s3 := CheckGuarded(s, st);
    GuardedTracks(s, st, x, Inside(kind), lv);
    GuardedSteps(s, st, x, kind, lv, nulled);
    FinallySteps(s.fin, s3, x, kind, lv, nulled);
    StepsTransitive(st, s3, CheckFinally(s.fin, s3), x, kind, nulled,
                    !MentionsAll(s.body, x, Assigning) && !MentionsArms(s.handlers, x, Assigning),
                    !MentionsElse(s.fin, x, Assigning));
  }

  lemma FirstPath(st: State, x: Id, kind: Kind, nulled: bool)
    requires Coherent(st, x, kind, nulled)
    ensures var p := AddPath(Paths([], []), st);
            PathsOk(p, x, kind, nulled) && (kind == RawOwner && st.keep[x] == Deleted ==> AllDeleted(p.keeps, x))
  {
    hide FlowOk;
  }

  lemma {:induction false} GuardedSteps(s: Stmt, st: State, x: Id, kind: Kind, lv: int, nulled: bool)
    requires s.Try? && Located(st, x, Inside(kind), lv) && Coherent(st, x, kind, nulled)
    requires Resolved(s, x, Inside(kind)) && Steady(s, x, kind, nulled)
    ensures Steps(st, CheckGuarded(s, st), x, kind, nulled,
                  !MentionsAll(s.body, x, Assigning) && !MentionsArms(s.handlers, x, Assigning))
    decreases s, 0
  {
    hide CheckBlock, CheckArms, Only, MentionsAll, MentionsArms, MentionsElse, PairOk, ExitsOk, ResolvedAll,
         ResolvedArms, BottomsLookAll, BottomsLookArms, BottomsLookElse, MergeKeepPaths, MergeFlowPaths, PathsOk,
         AllDeleted, AddPath;
    var s0 := EnterBranch(st.keep, st.flow, st);
    BlockSteps(s.body, s0, x, kind, lv, nulled);
    BlockTracks(s.body, s0, x, Inside(kind), lv);
    var s1 := CheckBlock(s.body, s0);
    var p1 := AddPath(Paths([], []), s1);
    FirstPath(s1, x, kind, nulled);
    LocatedReset(st, s1, x, Inside(kind), lv);
    ArmsTrack(Catches, s.handlers, {}, st.keep, st.flow, s1, p1, x, Inside(kind), lv);
    ArmsSteps(Catches, s.handlers, {}, st.keep, st.flow, s1, p1, x, kind, lv, nulled);
    var (s2, p) := CheckArms(Catches, s.handlers, {}, st.keep, st.flow, s1, p1);
    JoinAligned(st.keep, st.flow, p, x, kind, nulled);
  }

  lemma {:induction false} FinallySteps(fin: Else, st: State, x: Id, kind: Kind, lv: int, nulled: bool)
    requires Located(st, x, Inside(kind), lv) && Coherent(st, x, kind, nulled)
    requires ResolvedElse(fin, x, Inside(kind)) && SteadyElse(fin, x, kind, nulled)
    ensures Steps(st, CheckFinally(fin, st), x, kind, nulled, !MentionsElse(fin, x, Assigning))
    decreases fin, 0
  {
    hide CheckBlock, Only, MentionsAll, ResolvedAll, BottomsLookAll, PairOk, ExitsOk;
    if fin.ElseBody? {
      var s1 := st.(terminated := false, finallyDepth := st.finallyDepth + 1);
      SameTables(st, s1, x, Inside(kind), lv);
      BlockSteps(fin.body, s1, x, kind, lv, nulled);
    }
  }
}
