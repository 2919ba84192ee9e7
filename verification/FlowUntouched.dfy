/** Text that does nothing to an owner or a task but look at it leaves its entries in both
    tables alone, on every path and in every state recorded for a loop. */
module FlowUntouched {
  import opened FlowSyntax
  import opened FlowState
  import opened FlowChecker
  import opened FlowFrame
  import opened FlowTracking
  import opened FlowFragment

  /** Two pairs of tables with the same entries for `x`. */
  predicate SameEntries(keep: KeepMap, flow: FlowMap, keep': KeepMap, flow': FlowMap, x: Id, kind: Kind) {
    && x in flow && x in flow' && flow'[x] == flow[x]
    && (kind == RawOwner ==> x in keep && x in keep' && keep'[x] == keep[x])
  }

  ghost predicate SameFlows(flow: FlowMap, flows: seq<FlowMap>, x: Id) {
    x in flow && forall j | 0 <= j < |flows| :: x in flows[j] && flows[j][x] == flow[x]
  }

  ghost predicate SameKeeps(keep: KeepMap, keeps: seq<KeepMap>, x: Id, kind: Kind) {
    kind == RawOwner ==> x in keep && forall j | 0 <= j < |keeps| :: x in keeps[j] && keeps[j][x] == keep[x]
  }

  /** What was recorded between the two states has the entries of the tables given. */
  ghost predicate SameRecords(keep: KeepMap, flow: FlowMap, st: State, r: State, x: Id, kind: Kind) {
    SameFlows(flow, NewFlows(st, r), x) && SameKeeps(keep, NewKeeps(st, r), x, kind)
  }

  ghost predicate Untouched(st: State, r: State, x: Id, kind: Kind) {
    SameEntries(st.keep, st.flow, r.keep, r.flow, x, kind) && SameRecords(st.keep, st.flow, st, r, x, kind)
  }

  lemma UntouchedThen(a: State, b: State, c: State, x: Id, kind: Kind)
    requires Frame(a, b) && Frame(b, c) && Ready(a) && Ready(b) && Ready(c)
    requires Untouched(a, b, x, kind) && Untouched(b, c, x, kind)
    ensures Untouched(a, c, x, kind)
  {
    NewTransitive(a, b, c);
  }

  lemma NothingNew(st: State, r: State, x: Id, kind: Kind)
    requires r.breakFlows == st.breakFlows && r.breakKeeps == st.breakKeeps
    requires SameEntries(st.keep, st.flow, r.keep, r.flow, x, kind)
    ensures Untouched(st, r, x, kind)
  {
    assert NewFlows(st, r) == [] && NewKeeps(st, r) == [];
  }

  /** Who changes nothing assigns nothing and sets nothing to null. */
  lemma {:induction false} ChangesLess(s: Stmt, x: Id)
    ensures Mentions(s, x, Assigning) || Mentions(s, x, Nulling) ==> Mentions(s, x, Changing)
    decreases s, 1
  {
    match s
    case Block(body) => ChangesLessAll(body, x);
    case If(arms, els) => ChangesLessArms(arms, x); ChangesLessElse(els, x);
    case Switch(_, _, arms, els) => ChangesLessArms(arms, x); ChangesLessElse(els, x);
    case While(body) => ChangesLessAll(body, x);
    case DoWhile(body) => ChangesLessAll(body, x);
    case Try(body, handlers, fin) => ChangesLessAll(body, x); ChangesLessArms(handlers, x); ChangesLessElse(fin, x);
    case _ =>
  }

  lemma {:induction false} ChangesLessAll(ss: Stmts, x: Id)
    ensures MentionsAll(ss, x, Assigning) || MentionsAll(ss, x, Nulling) ==> MentionsAll(ss, x, Changing)
    decreases ss, 0
  {
    if ss.Then? { ChangesLess(ss.head, x); ChangesLessAll(ss.tail, x); }
  }

  lemma {:induction false} ChangesLessArms(arms: Arms, x: Id)
    ensures MentionsArms(arms, x, Assigning) || MentionsArms(arms, x, Nulling) ==> MentionsArms(arms, x, Changing)
    decreases arms, 0
  {
    if arms.Arm? { ChangesLessAll(arms.body, x); ChangesLessArms(arms.rest, x); }
  }

  lemma {:induction false} ChangesLessElse(els: Else, x: Id)
    ensures MentionsElse(els, x, Assigning) || MentionsElse(els, x, Nulling) ==> MentionsElse(els, x, Changing)
    decreases els, 0
  {
    if els.ElseBody? { ChangesLessAll(els.body, x); }
  }

  // ---- Joins ----

  lemma {:induction false} JoinSameFlow(x: Id, flow: FlowMap, flows: seq<FlowMap>)
    requires SameFlows(flow, flows, x) && |flows| > 0
    ensures JoinFlow(x, flow[x], flows) == flow[x]
  {
    if |flows| > 1 {
      assert forall j | 0 <= j < |flows| - 1 :: ButLast(flows)[j] == flows[j];
      JoinSameFlow(x, flow, ButLast(flows));
    }
  }

  lemma {:induction false} JoinSameKeep(x: Id, keep: KeepMap, keeps: seq<KeepMap>)
    requires SameKeeps(keep, keeps, x, RawOwner) && |keeps| > 0
    ensures JoinKeep(x, keep[x], keeps) == keep[x]
  {
    if |keeps| > 1 {
      assert forall j | 0 <= j < |keeps| - 1 :: ButLast(keeps)[j] == keeps[j];
      JoinSameKeep(x, keep, ButLast(keeps));
    }
  }

  lemma MergeSame(keep: KeepMap, flow: FlowMap, keeps: seq<KeepMap>, flows: seq<FlowMap>, x: Id, kind: Kind)
    requires SameFlows(flow, flows, x) && SameKeeps(keep, keeps, x, kind)
    ensures SameEntries(keep, flow, MergeKeepPaths(keep, keeps), MergeFlowPaths(flow, flows), x, kind)
  {
    if |flows| > 0 { JoinSameFlow(x, flow, flows); }
    if kind == RawOwner && |keeps| > 0 { JoinSameKeep(x, keep, keeps); }
  }

  // ---- Statements ----

  lemma {:induction false} CheckUntouched(s: Stmt, st: State, x: Id, kind: Kind, lv: int)
    requires Located(st, x, Inside(kind), lv) && Resolved(s, x, Inside(kind))
    requires Owned(Inside(kind)) && !Mentions(s, x, Changing)
    ensures Untouched(st, Check(s, st), x, kind)
    decreases s, 2
  {
    hide Located, CheckBlock, CheckIf, CheckSwitch, CheckTry, CheckLoop, CheckOp, CheckLoopExit, CheckFunctionExit,
         Untouched, MentionsAll, MentionsArms, MentionsElse, ResolvedAll, ResolvedArms, ResolvedElse;
    match s
    case Do(op, y) => OpUntouched(op, y, st, x, kind, lv);
    case Call(_) => StaysUntouched(st, x, kind, lv);
    case Block(body) => BlockUntouched(body, st, x, kind, lv);
    case If(_, _) => IfUntouched(s, st, x, kind, lv);
    case Switch(_, _, _, _) => SwitchUntouched(s, st, x, kind, lv);
    case While(body) => LoopUntouched(body, Paths([st.keep], [st.flow]), st, x, kind, lv);
    case DoWhile(body) => LoopUntouched(body, Paths([], []), st, x, kind, lv);
    case Try(_, _, _) => TryUntouched(s, st, x, kind, lv);
    case Throw | Return => FunctionExitUntouched(st, x, kind, lv);
    case Break => LoopExitUntouched(true, st, x, kind, lv);
    case Continue => LoopExitUntouched(false, st, x, kind, lv);
  }

  lemma StaysUntouched(st: State, x: Id, kind: Kind, lv: int)
    requires Located(st, x, Inside(kind), lv)
    ensures Untouched(st, st, x, kind)
  {
    NothingNew(st, st, x, kind);
  }

  lemma OpUntouched(op: Op, y: Id, st: State, x: Id, kind: Kind, lv: int)
    requires Located(st, x, Inside(kind), lv) && Resolved(Do(op, y), x, Inside(kind))
    requires Owned(Inside(kind)) && !Mentions(Do(op, y), x, Changing)
    ensures Untouched(st, CheckOp(op, y, st), x, kind)
  {
    NothingNew(st, CheckOp(op, y, st), x, kind);
  }

  lemma FunctionExitUntouched(st: State, x: Id, kind: Kind, lv: int)
    requires Located(st, x, Inside(kind), lv)
    ensures Untouched(st, CheckFunctionExit(st), x, kind)
  {
    hide KeepScopeReports, TaskScopeReports;
    NothingNew(st, CheckFunctionExit(st), x, kind);
  }

  lemma LoopExitUntouched(isBreak: bool, st: State, x: Id, kind: Kind, lv: int)
    requires Located(st, x, Inside(kind), lv)
    ensures Untouched(st, CheckLoopExit(isBreak, st), x, kind)
  {
    var r := CheckLoopExit(isBreak, st);
    if |st.loopDepths| > 0 {
      LoopExitRecords(isBreak, st);
      assert NewFlows(st, r) == [st.flow];
      assert NewKeeps(st, r) == if isBreak then [st.keep] else [];
    } else {
      NothingNew(st, r, x, kind);
    }
  }

  lemma StaysInside(s: Stmt, x: Id, kind: Kind)
    requires Resolved(s, x, Inside(kind))
    ensures After(s, x, Inside(kind)) == Inside(kind)
  {
  }

  lemma {:induction false} AllUntouched(ss: Stmts, st: State, x: Id, kind: Kind, lv: int)
    requires Located(st, x, Inside(kind), lv) && ResolvedAll(ss, x, Inside(kind))
    requires Owned(Inside(kind)) && !MentionsAll(ss, x, Changing)
    ensures Untouched(st, CheckAll(ss, st), x, kind)
    decreases ss, 0
  {
    hide Only, Check, Untouched, TopGrows, Mentions, Resolved;
    match ss
    case End => StaysUntouched(st, x, kind, lv);
    case Then(s, tail) =>
      var s1 := Check(s, st);
      CheckGrows(s, st);
      CheckUntouched(s, st, x, kind, lv);
      if !s1.terminated {
        StaysInside(s, x, kind);
        CheckTracks(s, st, x, Inside(kind), lv);
        AllGrows(tail, s1);
        AllUntouched(tail, s1, x, kind, lv);
        UntouchedThen(st, s1, CheckAll(tail, s1), x, kind);
      }
  }

  lemma {:induction false} BlockUntouched(body: Stmts, st: State, x: Id, kind: Kind, lv: int)
    requires Located(st, x, Inside(kind), lv) && ResolvedAll(body, x, Inside(kind))
    requires Owned(Inside(kind)) && !MentionsAll(body, x, Changing)
    ensures Untouched(st, CheckBlock(body, st), x, kind)
    decreases body, 1
  {
    hide CheckAll, MentionsAll, ResolvedAll;
    var s0 := PushScopes(st);
    LocatedPush(st, x, Inside(kind), lv);
    AllGrows(body, s0);
    AllUntouched(body, s0, x, kind, lv);
    AllTracks(body, s0, x, Inside(kind), lv);
    PopUntouched(st, CheckAll(body, s0), x, kind, lv);
  }

  lemma PopUntouched(st: State, s1: State, x: Id, kind: Kind, lv: int)
    requires Located(s1, x, Inside(kind), lv) && lv < Top(s1) && Untouched(PushScopes(st), s1, x, kind)
    ensures Untouched(st, PopScopes(s1), x, kind)
  {
    assert x !in IdsOf(Last(s1.flowScopes)) && x !in IdsOf(Last(s1.keepScopes));
    var r := PopScopes(s1);
    assert r.breakFlows == s1.breakFlows && r.breakKeeps == s1.breakKeeps;
  }

  lemma {:induction false} LoopUntouched(body: Stmts, first: Paths, st: State, x: Id, kind: Kind, lv: int)
    requires Located(st, x, Inside(kind), lv) && ResolvedAll(body, x, Inside(kind))
    requires Owned(Inside(kind)) && !MentionsAll(body, x, Changing)
    requires first == Paths([st.keep], [st.flow]) || first == Paths([], [])
    ensures Untouched(st, CheckLoop(body, first, st), x, kind)
    decreases body, 2
  {
    hide CheckBlock, MentionsAll, ResolvedAll, Only, LeaveLoop;
    var s0 := EnterLoop(st);
    BlockGrows(body, s0);
    BlockUntouched(body, s0, x, kind, lv);
    var s1 := CheckBlock(body, s0);
    LeaveLists(st, first, s1);
    LeaveUntouched(st, first, s1, x, kind);
    NothingNew(st, LeaveLoop(st.keep, st.flow, first, s1), x, kind);
  }

  lemma LeaveUntouched(st: State, first: Paths, s1: State, x: Id, kind: Kind)
    requires Ready(st) && Ready(s1) && Frame(EnterLoop(st), s1) && Untouched(EnterLoop(st), s1, x, kind)
    requires first == Paths([st.keep], [st.flow]) || first == Paths([], [])
    ensures var r := LeaveLoop(st.keep, st.flow, first, s1); SameEntries(st.keep, st.flow, r.keep, r.flow, x, kind)
  {
    hide MergeKeepPaths, MergeFlowPaths;
    assert NewFlows(EnterLoop(st), s1) == Last(s1.breakFlows) && NewKeeps(EnterLoop(st), s1) == Last(s1.breakKeeps);
    var p := AddPath(first, s1);
    var keeps, flows := p.keeps + Last(s1.breakKeeps), p.flows + Last(s1.breakFlows);
    assert SameFlows(st.flow, p.flows, x) && SameKeeps(st.keep, p.keeps, x, kind);
    MergeSame(st.keep, st.flow, if keeps == [] then [st.keep] else keeps,
              if flows == [] then [st.flow] else flows, x, kind);
  }

  // ---- Branches ----

  ghost predicate SamePaths(keep: KeepMap, flow: FlowMap, p: Paths, x: Id, kind: Kind) {
    SameFlows(flow, p.flows, x) && SameKeeps(keep, p.keeps, x, kind)
  }

  lemma AddSame(keep: KeepMap, flow: FlowMap, p: Paths, st: State, x: Id, kind: Kind)
    requires SamePaths(keep, flow, p, x, kind) && SameEntries(keep, flow, st.keep, st.flow, x, kind)
    ensures SamePaths(keep, flow, AddPath(p, st), x, kind)
  {
  }

  lemma RecordsThen(keep: KeepMap, flow: FlowMap, a: State, b: State, c: State, x: Id, kind: Kind)
    requires Frame(a, b) && Frame(b, c) && Ready(a) && Ready(b) && Ready(c)
    requires SameRecords(keep, flow, a, b, x, kind) && SameRecords(keep, flow, b, c, x, kind)
    ensures SameRecords(keep, flow, a, c, x, kind)
  {
    NewTransitive(a, b, c);
  }

  lemma {:induction false} ArmsUntouched(kind: ArmKind, arms: Arms, seen: set<Label>, keep: KeepMap, flow: FlowMap,
                                         st: State, p: Paths, x: Id, k: Kind, lv: int)
    requires Located(st.(keep := keep, flow := flow), x, Inside(k), lv) && Owned(Inside(k))
    requires ResolvedArms(arms, x, Inside(k)) && !MentionsArms(arms, x, Changing) && (kind.Catches? || NoneCaught(arms))
    requires SamePaths(keep, flow, p, x, k)
    ensures var (r, q) := CheckArms(kind, arms, seen, keep, flow, st, p);
            SameRecords(keep, flow, st, r, x, k) && SamePaths(keep, flow, q, x, k)
    decreases arms, 0
  {
    hide CheckBlock, EnterArm, LeaveArm, SamePaths, SameRecords, Only, TopGrows, MentionsAll, ResolvedAll;
    match arms
    case NoArms => StaysRecorded(keep, flow, st, x, k, lv);
    case Arm(tag, body, rest) =>
      var s0 := EnterBranch(keep, flow, st);
      var s2 := CheckBlock(body, EnterArm(kind, tag, seen, s0));
      var s3, p1 := LeaveArm(kind, s2), AddPath(p, s2);
      ArmUntouched(kind, tag, body, seen, keep, flow, st, x, k, lv);
      AddSame(keep, flow, p, s2, x, k);
      ArmTracks(kind, tag, body, seen, keep, flow, st, x, Inside(k), lv);
      ArmKeepsFrame(kind, tag, body, seen, keep, flow, st);
      ArmsUntouched(kind, rest, seen + {tag}, keep, flow, s3, p1, x, k, lv);
      ArmsGrow(kind, rest, seen + {tag}, keep, flow, s3, p1);
      RecordsThen(keep, flow, st, s3, CheckArms(kind, rest, seen + {tag}, keep, flow, s3, p1).0, x, k);
  }

  lemma StaysRecorded(keep: KeepMap, flow: FlowMap, st: State, x: Id, kind: Kind, lv: int)
    requires Located(st.(keep := keep, flow := flow), x, Inside(kind), lv)
    ensures SameRecords(keep, flow, st, st, x, kind)
  {
    assert NewFlows(st, st) == [] && NewKeeps(st, st) == [];
  }

  lemma {:induction false} ArmUntouched(kind: ArmKind, tag: Label, body: Stmts, seen: set<Label>,
                                        keep: KeepMap, flow: FlowMap, st: State, x: Id, k: Kind, lv: int)
    requires Located(st.(keep := keep, flow := flow), x, Inside(k), lv) && Owned(Inside(k)) && tag != Caught(x)
    requires ResolvedAll(body, x, Inside(k)) && !MentionsAll(body, x, Changing) && (kind.Catches? || !tag.Caught?)
    ensures var s2 := CheckBlock(body, EnterArm(kind, tag, seen, EnterBranch(keep, flow, st)));
            && SameEntries(keep, flow, s2.keep, s2.flow, x, k)
            && SameRecords(keep, flow, st, LeaveArm(kind, s2), x, k)
    decreases body, 2
  {
    hide CheckBlock, EnterArm, Only, TopGrows, MentionsAll, ResolvedAll;
    var s0 := EnterBranch(keep, flow, st);
    var s1 := EnterArm(kind, tag, seen, s0);
    EnterArmTracks(kind, tag, seen, s0, x, Inside(k), lv);
    EnterArmSame(kind, tag, seen, s0, x);
    BlockUntouched(body, s1, x, k, lv);
    var s2 := CheckBlock(body, s1);
    assert LeaveArm(kind, s2).breakFlows == s2.breakFlows && LeaveArm(kind, s2).breakKeeps == s2.breakKeeps;
    assert NewFlows(st, LeaveArm(kind, s2)) == NewFlows(s1, s2) && NewKeeps(st, LeaveArm(kind, s2)) == NewKeeps(s1, s2);
  }

  lemma EnterArmSame(kind: ArmKind, tag: Label, seen: set<Label>, st: State, x: Id)
    requires tag != Caught(x) && Ready(st)
    ensures var r := EnterArm(kind, tag, seen, st);
            && r.breakFlows == st.breakFlows && r.breakKeeps == st.breakKeeps && r.keep == st.keep
            && (x in st.flow ==> x in r.flow && r.flow[x] == st.flow[x])
  {
    hide CheckLabel, RegisterFlow;
    match kind
    case IfChain =>
    case SwitchOn(on) => LabelOnly(on, tag, seen, st);
    case Catches => if tag.Caught? { CatchOnly(tag.x, st); }
  }

  lemma {:induction false} ElseUntouched(els: Else, keep: KeepMap, flow: FlowMap, open: bool, st: State, p: Paths,
                                         x: Id, k: Kind, lv: int)
    requires Located(st.(keep := keep, flow := flow), x, Inside(k), lv) && Owned(Inside(k))
    requires ResolvedElse(els, x, Inside(k)) && !MentionsElse(els, x, Changing)
    requires SamePaths(keep, flow, p, x, k)
    ensures var (r, q) := CheckElse(els, keep, flow, open, st, p);
            SameRecords(keep, flow, st, r, x, k) && SamePaths(keep, flow, q, x, k)
    decreases els, 0
  {
    hide CheckBlock, Only, MentionsAll, ResolvedAll;
    match els
    case NoElse => StaysRecorded(keep, flow, st, x, k, lv);
    case ElseBody(body) =>
      var s0 := EnterBranch(keep, flow, st);
      BlockUntouched(body, s0, x, k, lv);
      var r := CheckBlock(body, s0);
      AddSame(keep, flow, p, r, x, k);
      assert NewFlows(st, r) == NewFlows(s0, r) && NewKeeps(st, r) == NewKeeps(s0, r);
  }

  lemma RejoinUntouched(st: State, s2: State, p: Paths, terminated: bool, x: Id, kind: Kind)
    requires SameRecords(st.keep, st.flow, st, s2, x, kind) && SamePaths(st.keep, st.flow, p, x, kind)
    ensures Untouched(st, Rejoin(st.keep, st.flow, p, terminated, s2), x, kind)
  {
    hide MergeKeepPaths, MergeFlowPaths;
    var r := Rejoin(st.keep, st.flow, p, terminated, s2);
    MergeSame(st.keep, st.flow, p.keeps, p.flows, x, kind);
    assert NewFlows(st, r) == NewFlows(st, s2) && NewKeeps(st, r) == NewKeeps(st, s2);
  }

  /** The branches, then the else branch. */
  lemma BranchesUntouched(kind: ArmKind, arms: Arms, els: Else, open: bool, st: State, s1: State, p1: Paths, s2: State,
                          x: Id, k: Kind)
    requires Ready(st)
    requires (s1, p1) == CheckArms(kind, arms, {}, st.keep, st.flow, st, Paths([], []))
    requires s2 == CheckElse(els, st.keep, st.flow, open, s1, p1).0
    requires SameRecords(st.keep, st.flow, st, s1, x, k) && SameRecords(st.keep, st.flow, s1, s2, x, k)
    ensures SameRecords(st.keep, st.flow, st, s2, x, k)
  {
    hide CheckArms, CheckElse, SameRecords, TopGrows;
    ArmsGrow(kind, arms, {}, st.keep, st.flow, st, Paths([], []));
    ElseGrows(els, st.keep, st.flow, open, s1, p1);
    RecordsThen(st.keep, st.flow, st, s1, s2, x, k);
  }

  lemma NoPaths(keep: KeepMap, flow: FlowMap, st: State, x: Id, kind: Kind, lv: int)
    requires Located(st, x, Inside(kind), lv) && keep == st.keep && flow == st.flow
    ensures SamePaths(keep, flow, Paths([], []), x, kind) && Ready(st) && st.(keep := keep, flow := flow) == st
  {
  }

  lemma {:induction false} IfUntouched(s: Stmt, st: State, x: Id, kind: Kind, lv: int)
    requires s.If? && Located(st, x, Inside(kind), lv) && Resolved(s, x, Inside(kind))
    requires Owned(Inside(kind)) && !Mentions(s, x, Changing)
    ensures Untouched(st, CheckIf(s, st), x, kind)
    decreases s, 0
  {
    hide CheckArms, CheckElse, SameRecords, SamePaths, Located, MentionsArms, MentionsElse, ResolvedArms, ResolvedElse,
         Rejoin, Untouched;
    var (s1, p1) := CheckArms(IfChain, s.arms, {}, st.keep, st.flow, st, Paths([], []));
    var (s2, p2) := CheckElse(s.els, st.keep, st.flow, true, s1, p1);
    NoPaths(st.keep, st.flow, st, x, kind, lv);
    ArmsUntouched(IfChain, s.arms, {}, st.keep, st.flow, st, Paths([], []), x, kind, lv);
    ArmsTrack(IfChain, s.arms, {}, st.keep, st.flow, st, Paths([], []), x, Inside(kind), lv);
    ElseUntouched(s.els, st.keep, st.flow, true, s1, p1, x, kind, lv);
    BranchesUntouched(IfChain, s.arms, s.els, true, st, s1, p1, s2, x, kind);
    RejoinUntouched(st, s2, p2, p2.keeps == [], x, kind);
  }

  lemma {:induction false} SwitchUntouched(s: Stmt, st: State, x: Id, kind: Kind, lv: int)
    requires s.Switch? && Located(st, x, Inside(kind), lv) && Resolved(s, x, Inside(kind))
    requires Owned(Inside(kind)) && !Mentions(s, x, Changing)
    ensures Untouched(st, CheckSwitch(s, st), x, kind)
    decreases s, 0
  {
    hide CheckArms, CheckElse, SamePaths, Located, MentionsArms, MentionsElse, ResolvedArms, ResolvedElse, Rejoin,
         Untouched, Covers, Labels;
    var all := s.els.ElseBody? || Covers(s.on, Labels(s.arms));
    var (s1, p1) := CheckArms(SwitchOn(s.on), s.arms, {}, st.keep, st.flow, st, Paths([], []));
    var (s2, p2) := CheckElse(s.els, st.keep, st.flow, !all, s1, p1);
    NoPaths(st.keep, st.flow, st, x, kind, lv);
    ArmsUntouched(SwitchOn(s.on), s.arms, {}, st.keep, st.flow, st, Paths([], []), x, kind, lv);
    ArmsTrack(SwitchOn(s.on), s.arms, {}, st.keep, st.flow, st, Paths([], []), x, Inside(kind), lv);
    ElseUntouched(s.els, st.keep, st.flow, !all, s1, p1, x, kind, lv);
    BranchesUntouched(SwitchOn(s.on), s.arms, s.els, !all, st, s1, p1, s2, x, kind);
    var s3 := ReportIf(s.exhaustive && !all, s2, NonExhaustiveMatch, NO_SYMBOL);
    assert NewFlows(st, s3) == NewFlows(st, s2) && NewKeeps(st, s3) == NewKeeps(st, s2);
    RejoinUntouched(st, s3, p2, all && p2.keeps == [], x, kind);
  }

  // ---- Try ----

  lemma {:induction false} TryUntouched(s: Stmt, st: State, x: Id, kind: Kind, lv: int)
    requires s.Try? && Located(st, x, Inside(kind), lv) && Resolved(s, x, Inside(kind))
    requires Owned(Inside(kind)) && !Mentions(s, x, Changing)
    ensures Untouched(st, CheckTry(s, st), x, kind)
    decreases s, 1
  {
    hide CheckGuarded, CheckFinally, Untouched, Only, TopGrows, MentionsAll, MentionsArms, MentionsElse, ResolvedAll,
         ResolvedArms, ResolvedElse;
    var g := CheckGuarded(s, st);
    GuardedGrows(s, st);
    GuardedTracks(s, st, x, Inside(kind), lv);
    GuardedUntouched(s, st, x, kind, lv);
    FinallyGrows(s.fin, g);
    FinallyUntouched(s.fin, g, x, kind, lv);
    UntouchedThen(st, g, CheckFinally(s.fin, g), x, kind);
  }

  lemma {:induction false} GuardedUntouched(s: Stmt, st: State, x: Id, kind: Kind, lv: int)
    requires s.Try? && Located(st, x, Inside(kind), lv) && Resolved(s, x, Inside(kind))
    requires Owned(Inside(kind)) && !MentionsAll(s.body, x, Changing) && !MentionsArms(s.handlers, x, Changing)
    ensures Untouched(st, CheckGuarded(s, st), x, kind)
    decreases s, 0
  {
    hide CheckBlock, CheckArms, Only, TopGrows, MentionsAll, MentionsArms, ResolvedAll, ResolvedArms, ResolvedElse,
         Rejoin;
    var s0 := EnterBranch(st.keep, st.flow, st);
    BlockUntouched(s.body, s0, x, kind, lv);
    BlockTracks(s.body, s0, x, Inside(kind), lv);
    BlockGrows(s.body, s0);
    var s1 := CheckBlock(s.body, s0);
    var p1 := AddPath(Paths([], []), s1);
    AddSame(st.keep, st.flow, Paths([], []), s1, x, kind);
    assert NewFlows(st, s1) == NewFlows(s0, s1) && NewKeeps(st, s1) == NewKeeps(s0, s1);
    LocatedReset(st, s1, x, Inside(kind), lv);
    ArmsUntouched(Catches, s.handlers, {}, st.keep, st.flow, s1, p1, x, kind, lv);
    ArmsGrow(Catches, s.handlers, {}, st.keep, st.flow, s1, p1);
    var (s2, p) := CheckArms(Catches, s.handlers, {}, st.keep, st.flow, s1, p1);
    RecordsThen(st.keep, st.flow, st, s1, s2, x, kind);
    RejoinUntouched(st, s2, p, p.keeps == [], x, kind);
  }

  lemma {:induction false} FinallyUntouched(fin: Else, st: State, x: Id, kind: Kind, lv: int)
    requires Located(st, x, Inside(kind), lv) && ResolvedElse(fin, x, Inside(kind))
    requires Owned(Inside(kind)) && !MentionsElse(fin, x, Changing)
    ensures Untouched(st, CheckFinally(fin, st), x, kind)
    decreases fin, 0
  {
    hide CheckBlock, MentionsAll, ResolvedAll, Only;
    if fin.ElseBody? {
      var s0 := st.(terminated := false, finallyDepth := st.finallyDepth + 1);
      BlockUntouched(fin.body, s0, x, kind, lv);
      var r := CheckFinally(fin, st);
      assert NewFlows(st, r) == NewFlows(s0, CheckBlock(fin.body, s0))
          && NewKeeps(st, r) == NewKeeps(s0, CheckBlock(fin.body, s0));
    } else {
      StaysUntouched(st, x, kind, lv);
    }
  }
}
