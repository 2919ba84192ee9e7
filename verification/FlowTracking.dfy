/** Where one local sits in the checker's tables while a body is walked: in the flow table
    exactly while it is in scope, in the keep table exactly while it is a raw owner in
    scope, and registered in exactly one scope. */
module FlowTracking {
  import opened FlowSyntax
  import opened FlowState
  import opened FlowChecker
  import opened FlowFrame

  /** `x` is registered in scope `lv` and in no other. */
  ghost predicate Only(scopes: seq<seq<Id>>, x: Id, lv: int) {
    forall i | 0 <= i < |scopes| :: x in scopes[i] <==> i == lv
  }

  ghost predicate Located(st: State, x: Id, k: Status, lv: int) {
    && Ready(st)
    && Only(st.flowScopes, x, lv)
    && Only(st.keepScopes, x, if k == Inside(RawOwner) then lv else -1)
    && (x in st.keep <==> k == Inside(RawOwner))
    && (x in st.flow <==> k.Inside?)
    && (if k.Inside? then 0 <= lv < |st.flowScopes| else lv == -1)
  }

  /** The states recorded for the innermost loop know `x`. */
  ghost predicate Recorded(st: State, x: Id, k: Status) {
    && (|st.breakFlows| > 0 ==> forall j | 0 <= j < |Last(st.breakFlows)| :: x in Last(st.breakFlows)[j])
    && (|st.breakKeeps| > 0 && k == Inside(RawOwner) ==>
          forall j | 0 <= j < |Last(st.breakKeeps)| :: x in Last(st.breakKeeps)[j])
  }

  function Top(st: State): int { |st.flowScopes| - 1 }

  /** Where a list of statements may leave `x`: where it was, or declared in the list. */
  ghost predicate LocatedAfter(st: State, r: State, x: Id, k: Status, lv: int) {
    || Located(r, x, k, lv)
    || (k == Outside && exists kind :: Located(r, x, Inside(kind), Top(st)))
  }

  ghost predicate Tracked(st: State, r: State, x: Id, k: Status, lv: int) {
    Located(r, x, k, lv) && (k.Inside? && Recorded(st, x, k) ==> Recorded(r, x, k))
  }

  lemma OpKeys(op: Op, y: Id, st: State)
    requires !Declares(op)
    ensures var r := CheckOp(op, y, st);
            && r.keepScopes == st.keepScopes && r.flowScopes == st.flowScopes
            && r.keep.Keys == st.keep.Keys && r.flow.Keys == st.flow.Keys
            && r.breakFlows == st.breakFlows && r.breakKeeps == st.breakKeeps && r.loopDepths == st.loopDepths
  {
    hide DeleteReports, ReadReports, DerefReports, AwaitReports, When;
  }

  lemma DeclareKeys(op: Op, y: Id, st: State)
    requires Declares(op) && Ready(st)
    ensures var r := CheckOp(op, y, st);
            && r.flowScopes == ButLast(st.flowScopes) + [Last(st.flowScopes) + [y]]
            && r.keepScopes == (if op.NewRaw? then ButLast(st.keepScopes) + [Last(st.keepScopes) + [y]]
                                else st.keepScopes)
            && r.flow.Keys == st.flow.Keys + {y}
            && r.keep.Keys == st.keep.Keys + (if op.NewRaw? then {y} else {})
            && r.breakFlows == st.breakFlows && r.breakKeeps == st.breakKeeps && r.loopDepths == st.loopDepths
  {
  }

  /** One more local in the innermost scope. */
  lemma OnlyAppended(scopes: seq<seq<Id>>, x: Id, lv: int, y: Id)
    requires |scopes| > 0 && Only(scopes, x, lv) && (y == x ==> lv == -1)
    ensures Only(ButLast(scopes) + [Last(scopes) + [y]], x, if y == x then |scopes| - 1 else lv)
  {
  }

  lemma LocatedOp(op: Op, y: Id, st: State, x: Id, k: Status, lv: int)
    requires Located(st, x, k, lv) && Resolved(Do(op, y), x, k)
    ensures var r := CheckOp(op, y, st);
            Located(r, x, After(Do(op, y), x, k), if Declares(op) && y == x then Top(st) else lv)
    ensures k.Inside? && Recorded(st, x, k) ==> Recorded(CheckOp(op, y, st), x, k)
  {
    hide CheckOp, Only;
    if Declares(op) {
      DeclareKeys(op, y, st);
      OnlyAppended(st.flowScopes, x, lv, y);
      if op.NewRaw? { OnlyAppended(st.keepScopes, x, if k == Inside(RawOwner) then lv else -1, y); }
    } else {
      OpKeys(op, y, st);
    }
  }

  lemma LocatedPush(st: State, x: Id, k: Status, lv: int)
    requires Located(st, x, k, lv)
    ensures Located(PushScopes(st), x, k, lv)
  {
  }

  /** Leaving a scope forgets exactly the locals declared in it. */
  lemma LocatedPop(st: State, x: Id, k: Status, lv: int)
    requires Located(st, x, k, lv) && |st.flowScopes| > 1
    ensures if lv == Top(st) then Located(PopScopes(st), x, Outside, -1) else Located(PopScopes(st), x, k, lv)
  {
    var r := PopScopes(st);
    assert lv != Top(st) ==> x !in IdsOf(Last(st.flowScopes)) && x !in IdsOf(Last(st.keepScopes));
    assert lv == Top(st) ==> x in IdsOf(Last(st.flowScopes)) && (x in st.keep ==> x in IdsOf(Last(st.keepScopes)));
  }

  lemma LocatedFrame(st: State, r: State, x: Id, k: Status, lv: int)
    requires Located(st, x, k, lv) && SameScopes(st, r) && Ready(r)
    requires (x in r.keep <==> x in st.keep) && (x in r.flow <==> x in st.flow)
    ensures Located(r, x, k, lv)
  {
  }

  lemma SameTables(a: State, b: State, x: Id, k: Status, lv: int)
    requires b == a.(terminated := b.terminated, finallyDepth := b.finallyDepth)
    ensures Located(a, x, k, lv) <==> Located(b, x, k, lv)
    ensures Recorded(a, x, k) <==> Recorded(b, x, k)
  {
  }

  lemma LocatedReset(a: State, b: State, x: Id, k: Status, lv: int)
    requires Located(a, x, k, lv) && Located(b, x, k, lv)
    ensures Located(b.(keep := a.keep, flow := a.flow), x, k, lv)
  {
  }

  lemma LocatedRejoin(keep: KeepMap, flow: FlowMap, p: Paths, terminated: bool, st: State, x: Id, k: Status, lv: int)
    requires Located(st.(keep := keep, flow := flow), x, k, lv)
    ensures Located(Rejoin(keep, flow, p, terminated, st), x, k, lv)
  {
    assert MergeKeepPaths(keep, p.keeps).Keys == keep.Keys;
    assert MergeFlowPaths(flow, p.flows).Keys == flow.Keys;
  }

  lemma FunctionExitTracks(st: State, x: Id, k: Status, lv: int)
    requires Located(st, x, k, lv)
    ensures Tracked(st, CheckFunctionExit(st), x, k, lv)
  {
    hide Only, TopGrows, KeepScopeReports, TaskScopeReports;
    FunctionExitGrows(st);
  }

  lemma LoopExitTracks(isBreak: bool, st: State, x: Id, k: Status, lv: int)
    requires Located(st, x, k, lv)
    ensures Tracked(st, CheckLoopExit(isBreak, st), x, k, lv)
  {
    hide Only, TopGrows, KeepScopeReports, TaskScopeReports;
    LoopExitGrows(isBreak, st);
  }

  lemma {:induction false} CheckTracks(s: Stmt, st: State, x: Id, k: Status, lv: int)
    requires Located(st, x, k, lv) && Resolved(s, x, k)
    ensures var r := Check(s, st);
            Located(r, x, After(s, x, k), if After(s, x, k) == k then lv else Top(st))
    ensures k.Inside? && Recorded(st, x, k) ==> Recorded(Check(s, st), x, k)
    decreases s, 2
  {
    hide CheckOp, CheckBlock, CheckIf, CheckSwitch, CheckLoop, CheckTry, CheckLoopExit, CheckFunctionExit, Only,
         TopGrows;
    CheckGrows(s, st);
    match s
    case Do(op, y) => LocatedOp(op, y, st, x, k, lv);
    case Call(_) =>
    case Block(body) => BlockTracks(body, st, x, k, lv);
    case If(_, _) => IfTracks(s, st, x, k, lv);
    case Switch(_, _, _, _) => SwitchTracks(s, st, x, k, lv);
    case While(body) => LoopTracks(body, Paths([st.keep], [st.flow]), st, x, k, lv);
    case DoWhile(body) => LoopTracks(body, Paths([], []), st, x, k, lv);
    case Try(_, _, _) => TryTracks(s, st, x, k, lv);
    case Throw | Return => FunctionExitTracks(st, x, k, lv);
    case Break => LoopExitTracks(true, st, x, k, lv);
    case Continue => LoopExitTracks(false, st, x, k, lv);
  }

  lemma {:induction false} AllTracks(ss: Stmts, st: State, x: Id, k: Status, lv: int)
    requires Located(st, x, k, lv) && ResolvedAll(ss, x, k)
    ensures LocatedAfter(st, CheckAll(ss, st), x, k, lv)
    ensures k.Inside? && Recorded(st, x, k) ==> Recorded(CheckAll(ss, st), x, k)
    decreases ss, 0
  {
    match ss
    case End =>
    case Then(s, tail) =>
      CheckTracks(s, st, x, k, lv);
      CheckGrows(s, st);
      var s1 := Check(s, st);
      if !s1.terminated {
        var k1 := After(s, x, k);
        AllTracks(tail, s1, x, k1, if k1 == k then lv else Top(st));
      }
  }

  lemma {:induction false} BlockTracks(body: Stmts, st: State, x: Id, k: Status, lv: int)
    requires Located(st, x, k, lv) && ResolvedAll(body, x, k)
    ensures Tracked(st, CheckBlock(body, st), x, k, lv)
    decreases body, 1
  {
    hide CheckAll, Only, PopScopes;
    var s0 := PushScopes(st);
    LocatedPush(st, x, k, lv);
    AllGrows(body, s0);
    AllTracks(body, s0, x, k, lv);
    var s1 := CheckAll(body, s0);
    PopQuiet(s1);
    if Located(s1, x, k, lv) {
      LocatedPop(s1, x, k, lv);
    } else {
      var kind :| Located(s1, x, Inside(kind), Top(s0));
      LocatedPop(s1, x, Inside(kind), Top(s0));
    }
  }

  lemma LoopKeys(body: Stmts, first: Paths, st: State)
    requires Ready(st)
    ensures var r := CheckLoop(body, first, st);
            && r.keep.Keys == st.keep.Keys && r.flow.Keys == st.flow.Keys
            && r.breakKeeps == st.breakKeeps && r.breakFlows == st.breakFlows
  {
    hide CheckBlock, JoinKeep, JoinFlow, TopGrows;
    BlockGrows(body, EnterLoop(st));
    LeaveLists(st, first, CheckBlock(body, EnterLoop(st)));
  }

  lemma {:induction false} LoopTracks(body: Stmts, first: Paths, st: State, x: Id, k: Status, lv: int)
    requires Located(st, x, k, lv) && ResolvedAll(body, x, k)
    ensures Tracked(st, CheckLoop(body, first, st), x, k, lv)
    decreases body, 2
  {
    hide CheckBlock, CheckLoop, Only, TopGrows;
    BlockGrows(body, EnterLoop(st));
    BlockTracks(body, EnterLoop(st), x, k, lv);
    LoopGrows(body, first, st);
    LoopKeys(body, first, st);
    LocatedFrame(st, CheckLoop(body, first, st), x, k, lv);
  }

  lemma {:induction false} ArmsTrack(kind: ArmKind, arms: Arms, seen: set<Label>, keep: KeepMap, flow: FlowMap,
                                     st: State, p: Paths, x: Id, k: Status, lv: int)
    requires Located(st.(keep := keep, flow := flow), x, k, lv)
    requires ResolvedArms(arms, x, k)
    requires kind.Catches? || NoneCaught(arms)
    ensures Located(CheckArms(kind, arms, seen, keep, flow, st, p).0.(keep := keep, flow := flow), x, k, lv)
    ensures k.Inside? && Recorded(st, x, k) ==> Recorded(CheckArms(kind, arms, seen, keep, flow, st, p).0, x, k)
    decreases arms, 0
  {
    match arms
    case NoArms =>
    case Arm(tag, body, rest) =>
      var s2 := CheckBlock(body, EnterArm(kind, tag, seen, EnterBranch(keep, flow, st)));
      ArmTracks(kind, tag, body, seen, keep, flow, st, x, k, lv);
      ArmsTrack(kind, rest, seen + {tag}, keep, flow, LeaveArm(kind, s2), AddPath(p, s2), x, k, lv);
  }

  lemma EnterArmTracks(kind: ArmKind, tag: Label, seen: set<Label>, st: State, x: Id, k: Status, lv: int)
    requires Located(st, x, k, lv)
    requires tag == Caught(x) ==> kind.Catches? && k == Outside
    ensures var r := EnterArm(kind, tag, seen, st);
            if tag == Caught(x) then Located(r, x, Inside(Exception), Top(st) + 1) else Located(r, x, k, lv)
    ensures k.Inside? && Recorded(st, x, k) ==> Recorded(EnterArm(kind, tag, seen, st), x, k)
  {
    hide CheckLabel, RegisterFlow;
    match kind
    case IfChain =>
    case SwitchOn(on) => LabelOnly(on, tag, seen, st);
    case Catches =>
      LocatedPush(st, x, k, lv);
      if tag.Caught? { CatchOnly(tag.x, st); }
  }

  lemma LeaveArmTracks(kind: ArmKind, st: State, x: Id, k: Status, lv: int)
    requires Located(st, x, k, lv) && (kind.Catches? ==> |st.flowScopes| > 1)
    ensures var r := LeaveArm(kind, st);
            if kind.Catches? && lv == Top(st) then Located(r, x, Outside, -1) else Located(r, x, k, lv)
    ensures Recorded(st, x, k) ==> Recorded(LeaveArm(kind, st), x, k)
  {
    if kind.Catches? { LocatedPop(st, x, k, lv); }
  }

  lemma EnterArmHeight(kind: ArmKind, tag: Label, seen: set<Label>, st: State)
    requires Ready(st)
    ensures Ready(EnterArm(kind, tag, seen, st))
    ensures Top(EnterArm(kind, tag, seen, st)) == if kind.Catches? then Top(st) + 1 else Top(st)
  {
    EnterArmGrows(kind, tag, seen, st);
  }

  lemma BlockHeight(body: Stmts, st: State)
    requires Ready(st)
    ensures Top(CheckBlock(body, st)) == Top(st)
  {
    BlockGrows(body, st);
  }

  /** One branch. */
  lemma {:induction false} ArmTracks(kind: ArmKind, tag: Label, body: Stmts, seen: set<Label>,
                                     keep: KeepMap, flow: FlowMap, st: State, x: Id, k: Status, lv: int)
    requires Located(st.(keep := keep, flow := flow), x, k, lv)
    requires tag == Caught(x) ==> kind.Catches? && k == Outside
    requires ResolvedAll(body, x, if tag == Caught(x) then Inside(Exception) else k)
    ensures var s0 := EnterBranch(keep, flow, st);
            var r := LeaveArm(kind, CheckBlock(body, EnterArm(kind, tag, seen, s0)));
            Located(r, x, k, lv) && (k.Inside? && Recorded(st, x, k) ==> Recorded(r, x, k))
    decreases body, 2
  {
    hide CheckBlock, EnterArm, LeaveArm, Only, ResolvedAll;
    var s0 := EnterBranch(keep, flow, st);
    var s1 := EnterArm(kind, tag, seen, s0);
    EnterArmTracks(kind, tag, seen, s0, x, k, lv);
    EnterArmHeight(kind, tag, seen, s0);
    BlockHeight(body, s1);
    var k1, lv1 := if tag == Caught(x) then Inside(Exception) else k, if tag == Caught(x) then Top(st) + 1 else lv;
    BlockTracks(body, s1, x, k1, lv1);
    LeaveArmTracks(kind, CheckBlock(body, s1), x, k1, lv1);
  }

  lemma {:induction false} ElseTracks(els: Else, keep: KeepMap, flow: FlowMap, open: bool, st: State, p: Paths,
                                      x: Id, k: Status, lv: int)
    requires Located(st.(keep := keep, flow := flow), x, k, lv)
    requires ResolvedElse(els, x, k)
    ensures Located(CheckElse(els, keep, flow, open, st, p).0.(keep := keep, flow := flow), x, k, lv)
    ensures k.Inside? && Recorded(st, x, k) ==> Recorded(CheckElse(els, keep, flow, open, st, p).0, x, k)
    decreases els, 0
  {
    hide CheckBlock, Only, TopGrows;
    if els.ElseBody? {
      BlockGrows(els.body, EnterBranch(keep, flow, st));
      BlockTracks(els.body, EnterBranch(keep, flow, st), x, k, lv);
    }
  }

  lemma {:induction false} IfTracks(s: Stmt, st: State, x: Id, k: Status, lv: int)
    requires s.If? && Located(st, x, k, lv) && Resolved(s, x, k)
    ensures Tracked(st, CheckIf(s, st), x, k, lv)
    decreases s, 0
  {
    hide CheckArms, CheckElse, Only, TopGrows;
    IfGrows(s, st);
    var (s1, p1) := CheckArms(IfChain, s.arms, {}, st.keep, st.flow, st, Paths([], []));
    ArmsTrack(IfChain, s.arms, {}, st.keep, st.flow, st, Paths([], []), x, k, lv);
    ElseTracks(s.els, st.keep, st.flow, true, s1, p1, x, k, lv);
    LocatedFrame(st, CheckIf(s, st), x, k, lv);
  }

  lemma {:induction false} SwitchTracks(s: Stmt, st: State, x: Id, k: Status, lv: int)
    requires s.Switch? && Located(st, x, k, lv) && Resolved(s, x, k)
    ensures Tracked(st, CheckSwitch(s, st), x, k, lv)
    decreases s, 0
  {
    hide CheckArms, CheckElse, Only, TopGrows, Covers;
    SwitchGrows(s, st);
    var (s1, p1) := CheckArms(SwitchOn(s.on), s.arms, {}, st.keep, st.flow, st, Paths([], []));
    ArmsTrack(SwitchOn(s.on), s.arms, {}, st.keep, st.flow, st, Paths([], []), x, k, lv);
    var all := s.els.ElseBody? || Covers(s.on, Labels(s.arms));
    ElseTracks(s.els, st.keep, st.flow, !all, s1, p1, x, k, lv);
    LocatedFrame(st, CheckSwitch(s, st), x, k, lv);
  }

  lemma {:induction false} TryTracks(s: Stmt, st: State, x: Id, k: Status, lv: int)
    requires s.Try? && Located(st, x, k, lv) && Resolved(s, x, k)
    ensures Tracked(st, CheckTry(s, st), x, k, lv)
    decreases s, 1
  {
    GuardedTracks(s, st, x, k, lv);
    FinallyTracks(s.fin, CheckGuarded(s, st), x, k, lv);
  }

  lemma {:induction false} GuardedTracks(s: Stmt, st: State, x: Id, k: Status, lv: int)
    requires s.Try? && Located(st, x, k, lv) && Resolved(s, x, k)
    ensures Tracked(st, CheckGuarded(s, st), x, k, lv)
    decreases s, 0
  {
    hide CheckBlock, CheckArms;
    var s0 := EnterBranch(st.keep, st.flow, st);
    BlockTracks(s.body, s0, x, k, lv);
    var s1 := CheckBlock(s.body, s0);
    var p1 := AddPath(Paths([], []), s1);
    LocatedReset(st, s1, x, k, lv);
    ArmsTrack(Catches, s.handlers, {}, st.keep, st.flow, s1, p1, x, k, lv);
    var (s2, p) := CheckArms(Catches, s.handlers, {}, st.keep, st.flow, s1, p1);
    LocatedRejoin(st.keep, st.flow, p, p.keeps == [], s2, x, k, lv);
  }

  lemma {:induction false} FinallyTracks(fin: Else, st: State, x: Id, k: Status, lv: int)
    requires Located(st, x, k, lv) && ResolvedElse(fin, x, k)
    ensures Tracked(st, CheckFinally(fin, st), x, k, lv)
    decreases fin, 0
  {
    hide CheckBlock, Only;
    if fin.ElseBody? {
      var s1 := st.(terminated := false, finallyDepth := st.finallyDepth + 1);
      SameTables(st, s1, x, k, lv);
      BlockTracks(fin.body, s1, x, k, lv);
      SameTables(CheckBlock(fin.body, s1), CheckFinally(fin, st), x, k, lv);
    }
  }
}
