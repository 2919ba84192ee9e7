/** Why FlowFragment leaves out what it leaves out: for each condition a run can tell, a body
    that breaks only that condition, that the checker accepts, and that misbehaves on a run.
    (A switch on an enum without members is never passed; leaving it out costs nothing.) */
module FlowLimits {
  import opened FlowSyntax
  import opened FlowState
  import opened FlowChecker
  import opened FlowDoom
  import opened FlowFragment
  import opened Runs

  /** An accepted body that is not covered for `x`, and a run of it that goes wrong. */
  ghost predicate Misbehaves(body: Stmts, x: Id, kind: FaultKind) {
    && ResolvedAll(body, x, Outside) && !CoveredIn(body, x)
    && Accepted(body, false)
    && exists cs :: Fault(kind, x) in RunFunction(body, cs).store.faults
  }

  function One(a: Stmt): Stmts { Then(a, End) }

  function Two(a: Stmt, b: Stmt): Stmts { Then(a, One(b)) }

  function Three(a: Stmt, b: Stmt, c: Stmt): Stmts { Then(a, Two(b, c)) }

  // ---- The checker on bodies with one owner ----

  function OwnerFlow(v: Validity): FlowMap { map[0 := Flow(Initialized, v, NotTask)] }

  /** `st` with owner 0 as the only entry of both tables. */
  function With(st: State, k: Keep, v: Validity): State { st.(keep := map[0 := k], flow := OwnerFlow(v)) }

  /** The state in the scope that declares owner 0. */
  function Owner(k: Keep, v: Validity): State { With(START.(keepScopes := [[], [0]], flowScopes := [[], [0]]), k, v) }

  lemma Begins()
    ensures Check(Do(NewRaw, 0), PushScopes(START)) == Owner(Live, LivePointer)
  {
    var s := PushScopes(START);
    assert ButLast(s.keepScopes) == [[]] && ButLast(s.flowScopes) == [[]];
    assert Last(s.keepScopes) + [0] == [0] && Last(s.flowScopes) + [0] == [0];
  }

  /** The quiet operations on an owner, and what they make of it. */
  lemma OpOn(op: Op, st: State, k: Keep, v: Validity, k': Keep, v': Validity)
    requires match op
             case Delete => k != Deleted && v in {LivePointer, MaybeNull} && (k', v') == (Deleted, DeletedPointer)
             case Renew => k == Deleted && (k', v') == (Live, LivePointer)
             case SetNull => k == Deleted && (k', v') == (Deleted, Null)
             case Deref => v == LivePointer && (k', v') == (k, v)
             case _ => false
    ensures Check(Do(op, 0), With(st, k, v)) == With(st, k', v')
  {
    var s := With(st, k, v);
    assert s.keep[0 := k'] == map[0 := k'];
    assert s.flow[0 := Flow(Initialized, v', NotTask)] == OwnerFlow(v');
    assert s.diagnostics + [] == s.diagnostics;
  }

  lemma EmptyScope(st: State)
    requires |st.keepScopes| == |st.flowScopes| > 0 && Last(st.keepScopes) == [] && Last(st.flowScopes) == []
    ensures CheckScopesFrom(st, |st.keepScopes| - 1) == st
    ensures PopScopes(st) == st.(keepScopes := ButLast(st.keepScopes), flowScopes := ButLast(st.flowScopes))
  {
    var first := |st.keepScopes| - 1;
    assert From(st.keepScopes, first) == [[]] && From(st.flowScopes, first) == [[]];
    assert ButLast(From(st.keepScopes, first)) == [] && ButLast(From(st.flowScopes, first)) == [];
    assert KeepScopeReports(From(st.keepScopes, first), st.keep) == [];
    assert TaskScopeReports(From(st.flowScopes, first), st.flow) == [];
    assert st.flow - IdsOf([]) == st.flow && st.keep - IdsOf([]) == st.keep;
  }

  /** A loop body walked in the scope of the owner, that declares nothing itself. */
  function InLoop(k: Keep, v: Validity): State { PushScopes(EnterLoop(Owner(k, v))) }

  lemma InLoopIs(k: Keep, v: Validity)
    ensures InLoop(k, v) ==
            With(State(map[], map[], [[], [0], []], [[], [0], []], [2], [[]], [[]], false, 0, []), k, v)
  {
  }

  /** The owner after a loop whose body comes to its end. */
  lemma LoopOn(body: Stmts, first: Paths, k: Keep, v: Validity, k': Keep, v': Validity)
    requires CheckAll(body, InLoop(k, v)) == With(InLoop(k, v), k', v')
    requires first == Paths([], []) || first == Paths([map[0 := k]], [OwnerFlow(v)])
    ensures CheckLoop(body, first, Owner(k, v)) ==
            if first.keeps == [] then Owner(k', v') else Owner(MergeKeep(k, k'), MergeValidity(v, v'))
  {
    hide PushScopes, CheckAll, LeaveLoop, PopScopes;
    LoopBodyLeft(k, v, k', v');
    LoopLeft(first, k, v, k', v');
  }

  lemma LoopBodyLeft(k: Keep, v: Validity, k': Keep, v': Validity)
    ensures PopScopes(With(InLoop(k, v), k', v')) == With(EnterLoop(Owner(k, v)), k', v')
  {
    hide PopScopes;
    InLoopIs(k, v);
    var s1 := With(InLoop(k, v), k', v');
    EmptyScope(s1);
    assert ButLast(s1.keepScopes) == [[], [0]] && ButLast(s1.flowScopes) == [[], [0]];
  }

  lemma LoopLeft(first: Paths, k: Keep, v: Validity, k': Keep, v': Validity)
    requires first == Paths([], []) || first == Paths([map[0 := k]], [OwnerFlow(v)])
    ensures LeaveLoop(map[0 := k], OwnerFlow(v), first, With(EnterLoop(Owner(k, v)), k', v')) ==
            if first.keeps == [] then Owner(k', v') else Owner(MergeKeep(k, k'), MergeValidity(v, v'))
  {
    hide MergeKeepPaths, MergeFlowPaths;
    var s2 := With(EnterLoop(Owner(k, v)), k', v');
    var p := AddPath(first, s2);
    assert p.keeps + [] == p.keeps && p.flows + [] == p.flows;
    if first.keeps == [] {
      assert p.keeps == [s2.keep] && p.flows == [s2.flow];
      MergeOne(k, v, k', v');
    } else {
      assert p.keeps == [map[0 := k], s2.keep] && p.flows == [OwnerFlow(v), s2.flow];
      MergeTwo(k, v, k', v');
    }
  }

  lemma MergeOne(k: Keep, v: Validity, k': Keep, v': Validity)
    ensures MergeKeepPaths(map[0 := k], [map[0 := k']]) == map[0 := k']
    ensures MergeFlowPaths(OwnerFlow(v), [OwnerFlow(v')]) == OwnerFlow(v')
  {
  }

  lemma MergeTwo(k: Keep, v: Validity, k': Keep, v': Validity)
    ensures MergeKeepPaths(map[0 := k], [map[0 := k], map[0 := k']]) == map[0 := MergeKeep(k, k')]
    ensures MergeFlowPaths(OwnerFlow(v), [OwnerFlow(v), OwnerFlow(v')]) == OwnerFlow(MergeValidity(v, v'))
  {
    var ks, fs := [map[0 := k], map[0 := k']], [OwnerFlow(v), OwnerFlow(v')];
    var f := Flow(Initialized, v, NotTask);
    assert ButLast(ks) == [map[0 := k]] && JoinKeep(0, k, ButLast(ks)) == k;
    assert JoinKeep(0, k, ks) == MergeKeep(k, k');
    assert ButLast(fs) == [OwnerFlow(v)] && JoinFlow(0, f, ButLast(fs)) == f;
    assert JoinFlow(0, f, fs) == Flow(Initialized, MergeValidity(v, v'), NotTask);
    assert MergeKeepPaths(map[0 := k], ks) == map[0 := MergeKeep(k, k')];
    assert MergeFlowPaths(OwnerFlow(v), fs) == OwnerFlow(MergeValidity(v, v'));
  }

  /** The end of the function: the owner is deleted. */
  lemma Ends(body: Stmts, v: Validity)
    requires CheckAll(body, PushScopes(START)) == Owner(Deleted, v)
    ensures Accepted(body, false)
  {
    hide KeepScopeReports, TaskScopeReports, CheckAll;
    var s := Owner(Deleted, v);
    assert From(s.keepScopes, 1) == [[0]] && From(s.flowScopes, 1) == [[0]];
    OneScope(s.keep, s.flow);
    var p := PopScopes(s);
    assert p.keepScopes == [[]] && p.flowScopes == [[]] && p.diagnostics == [];
    EmptyScope(p);
  }

  lemma OneScope(keep: KeepMap, flow: FlowMap)
    requires 0 in keep && keep[0] == Deleted && 0 in flow && flow[0].task in {NotTask, Awaited}
    ensures KeepScopeReports([[0]], keep) == [] && TaskScopeReports([[0]], flow) == []
  {
    assert ButLast([0]) == [] && KeepReports(ButLast([0]), keep) == [] && TaskReports(ButLast([0]), flow) == [];
    assert KeepReports([0], keep) == [] && TaskReports([0], flow) == [];
    assert ButLast([[0]]) == [];
  }

  // ---- continue ----

  /** A `continue` records the value table but not the keep table, so an allocation made
      before it is forgotten: `while (c) { p = new raw T(); continue; }` */
  const RENEW_CONTINUE: Stmts :=
    Three(Do(NewRaw, 0), Do(Delete, 0), While(RENEW_TURN))

  const RENEW_TURN: Stmts := Two(Do(Renew, 0), Continue)

  /** The state after the turn: terminated, with one recorded value table. */
  lemma RenewTurn()
    ensures var s := CheckBlock(RENEW_TURN, EnterLoop(Owner(Deleted, DeletedPointer)));
            s == With(EnterLoop(Owner(Deleted, DeletedPointer)), Live, LivePointer)
                 .(terminated := true, breakFlows := [[OwnerFlow(LivePointer)]])
  {
    var s0 := InLoop(Deleted, DeletedPointer);
    var s1 := With(s0, Live, LivePointer);
    InLoopIs(Deleted, DeletedPointer);
    OpOn(Renew, s0, Deleted, DeletedPointer, Live, LivePointer);
    OpsThen(Renew, One(Continue), s0, Deleted, DeletedPointer, Live, LivePointer);
    assert With(s0, Deleted, DeletedPointer) == s0;
    ContinueRecords(s1);
    var s2 := s1.(terminated := true, breakFlows := [[OwnerFlow(LivePointer)]]);
    assert CheckAll(One(Continue), s1) == s2;
    EmptyScope(s2);
    assert ButLast(s2.keepScopes) == [[], [0]] && ButLast(s2.flowScopes) == [[], [0]];
  }

  lemma ContinueRecords(st: State)
    requires st == With(InLoop(Deleted, DeletedPointer), Live, LivePointer)
    ensures Check(Continue, st) == st.(terminated := true, breakFlows := [[OwnerFlow(LivePointer)]])
  {
    InLoopIs(Deleted, DeletedPointer);
    EmptyScope(st);
    assert ButLast(st.breakFlows) == [] && Last(st.breakFlows) + [st.flow] == [st.flow];
  }

  lemma RenewContinueLoop()
    ensures Check(While(RENEW_TURN), Owner(Deleted, DeletedPointer)) == Owner(Deleted, MaybeInvalid)
  {
    hide CheckAll, CheckBlock, MergeKeepPaths, MergeFlowPaths;
    RenewTurn();
    var st := Owner(Deleted, DeletedPointer);
    var s3 := CheckBlock(RENEW_TURN, EnterLoop(st));
    var p := Paths([st.keep], [st.flow]);
    assert AddPath(p, s3) == p && p.keeps + Last(s3.breakKeeps) == p.keeps;
    assert [st.flow] + [OwnerFlow(LivePointer)] == [st.flow, OwnerFlow(LivePointer)];
    MergeOne(Deleted, DeletedPointer, Deleted, DeletedPointer);
    MergeTwo(Deleted, DeletedPointer, Live, LivePointer);
  }

  lemma RenewContinueAccepted()
    ensures Accepted(RENEW_CONTINUE, false)
  {
    hide Check, CheckBlock;
    Begins();
    OpOn(Delete, Owner(Live, LivePointer), Live, LivePointer, Deleted, DeletedPointer);
    RenewContinueLoop();
    Ends(RENEW_CONTINUE, MaybeInvalid);
  }

  /** A store with one owner. */
  function Holding(c: Cell, heap: set<nat>, next: nat, faults: set<Fault>): Store {
    Store(map[0 := c], heap, {}, next, faults)
  }

  lemma LeaveNone(m: Store)
    ensures Leave({}, m) == m
  {
    assert m.env - {} == m.env;
    assert (set x | x in {} && Holds(m, x) :: Fault(Dropped, x)) == {};
  }

  lemma LoopTurns(body: Stmts, cs: seq<Choice>, m: Store, r: Run)
    requires |cs| > 0 && cs[0].Pick? && cs[0].n != 0 && RunBlock(body, cs[1..], m) == r
    requires r.outcome == Normal || r.outcome == Continued
    ensures RunLoop(body, cs, m) == RunLoop(body, r.rest, r.store)
  {
  }

  lemma LoopStops(body: Stmts, cs: seq<Choice>, m: Store)
    requires |cs| > 0 && cs[0] == Pick(0)
    ensures RunLoop(body, cs, m) == Run(Normal, cs[1..], m)
  {
  }

  lemma Shows(body: Stmts, x: Id, kind: FaultKind, cs: seq<Choice>)
    requires ResolvedAll(body, x, Outside) && !CoveredIn(body, x) && Accepted(body, false)
    requires Fault(kind, x) in RunFunction(body, cs).store.faults
    ensures Misbehaves(body, x, kind)
  {
    hide RunFunction, Accepted, CoveredIn, ResolvedAll;
  }

  /** A block of one operation. */
  lemma OpBlockRuns(op: Op, cs: seq<Choice>, m: Store, n: Store)
    requires !Declares(op) && Exec(op, 0, m) == n
    ensures RunBlock(One(Do(op, 0)), cs, m) == Run(Normal, cs, n)
  {
    hide Exec;
    OpThen(Do(op, 0), End, cs, m);
    assert Decls(One(Do(op, 0))) == {};
    LeaveNone(n);
  }

  lemma RenewContinueUncovered()
    ensures ResolvedAll(RENEW_CONTINUE, 0, Outside) && !CoveredIn(RENEW_CONTINUE, 0)
  {
  }

  lemma RenewContinueRuns()
    ensures Fault(Dropped, 0) in RunFunction(RENEW_CONTINUE, [Pick(1), Pick(0)]).store.faults
  {
    var cs := [Pick(1), Pick(0)];
    var m2, m3 := Holding(Ptr(0), {}, 1, {}), Holding(Ptr(1), {1}, 2, {});
    assert cs[1..] == [Pick(0)] && cs[1..][1..] == [];
    RenewOps(m2, m3);
    hide Exec, RunLoop, RunBlock, RunAll;
    RenewTurnRuns(cs[1..], m2, m3);
    LoopTurns(RENEW_TURN, cs, m2, Run(Continued, cs[1..], m3));
    LoopStops(RENEW_TURN, cs[1..], m3);
    RenewContinueSteps(cs, m2, m3);
    RenewDrops(cs, m3);
  }

  lemma RenewOps(m2: Store, m3: Store)
    requires m2 == Holding(Ptr(0), {}, 1, {}) && m3 == Holding(Ptr(1), {1}, 2, {})
    ensures Exec(Delete, 0, Exec(NewRaw, 0, EMPTY)) == m2 && Exec(Renew, 0, m2) == m3
  {
    assert Exec(NewRaw, 0, EMPTY) == Holding(Ptr(0), {0}, 1, {});
  }

  lemma RenewTurnRuns(cs: seq<Choice>, m: Store, n: Store)
    requires Exec(Renew, 0, m) == n
    ensures RunBlock(RENEW_TURN, cs, m) == Run(Continued, cs, n)
  {
    hide Exec;
    OpThen(Do(Renew, 0), One(Continue), cs, m);
    LeaveNone(n);
    assert Decls(RENEW_TURN) == {};
    assert RunAll(One(Continue), cs, n) == Run(Continued, cs, n);
  }

  lemma RenewDrops(cs: seq<Choice>, m: Store)
    requires RunAll(RENEW_CONTINUE, cs, EMPTY) == Run(Normal, [], m) && Holds(m, 0)
    ensures Fault(Dropped, 0) in RunFunction(RENEW_CONTINUE, cs).store.faults
  {
    hide RunAll;
    assert 0 in Decls(RENEW_CONTINUE);
  }

  lemma RenewContinueSteps(cs: seq<Choice>, m2: Store, m3: Store)
    requires Exec(Delete, 0, Exec(NewRaw, 0, EMPTY)) == m2 && RunLoop(RENEW_TURN, cs, m2) == Run(Normal, [], m3)
    ensures RunAll(RENEW_CONTINUE, cs, EMPTY) == Run(Normal, [], m3)
  {
    hide RunLoop, Exec;
    OpThen(Do(NewRaw, 0), Two(Do(Delete, 0), While(RENEW_TURN)), cs, EMPTY);
    OpThen(Do(Delete, 0), One(While(RENEW_TURN)), cs, Exec(NewRaw, 0, EMPTY));
  }

  lemma ContinueForgets()
    ensures Misbehaves(RENEW_CONTINUE, 0, Dropped)
  {
    hide *;
    RenewContinueAccepted();
    RenewContinueRuns();
    RenewContinueUncovered();
    Shows(RENEW_CONTINUE, 0, Dropped, [Pick(1), Pick(0)]);
  }

  // ---- null in a loop ----

  /** The body is walked once, from a live owner; the second turn starts from null. */
  const NULL_LOOP: Stmts :=
    Three(Do(NewRaw, 0), While(NULL_TURN), Do(Delete, 0))

  const NULL_TURN: Stmts := Three(Do(Deref, 0), Do(Delete, 0), Do(SetNull, 0))

  lemma OpsThen(op: Op, tail: Stmts, st: State, k: Keep, v: Validity, k': Keep, v': Validity)
    requires !st.terminated && Check(Do(op, 0), With(st, k, v)) == With(st, k', v')
    ensures CheckAll(Then(Do(op, 0), tail), With(st, k, v)) == CheckAll(tail, With(st, k', v'))
  {
    hide Check;
  }

  lemma NullTurnChecked()
    ensures CheckAll(NULL_TURN, InLoop(Live, LivePointer)) == With(InLoop(Live, LivePointer), Deleted, Null)
  {
    hide Check;
    var st := InLoop(Live, LivePointer);
    InLoopIs(Live, LivePointer);
    OpOn(Deref, st, Live, LivePointer, Live, LivePointer);
    OpOn(Delete, st, Live, LivePointer, Deleted, DeletedPointer);
    OpOn(SetNull, st, Deleted, DeletedPointer, Deleted, Null);
    OpsThen(Deref, Two(Do(Delete, 0), Do(SetNull, 0)), st, Live, LivePointer, Live, LivePointer);
    OpsThen(Delete, One(Do(SetNull, 0)), st, Live, LivePointer, Deleted, DeletedPointer);
    OpsThen(SetNull, End, st, Deleted, DeletedPointer, Deleted, Null);
    assert With(st, Live, LivePointer) == st;
  }

  lemma LoopThen(body: Stmts, tail: Stmts, st: State)
    ensures CheckAll(Then(While(body), tail), st) == CheckAll(tail, CheckLoop(body, Paths([st.keep], [st.flow]), st))
  {
    hide Check, CheckLoop;
    WhileIs(body, st);
    LoopEnds(body, Paths([st.keep], [st.flow]), st);
  }

  lemma WhileIs(body: Stmts, st: State)
    ensures Check(While(body), st) == CheckLoop(body, Paths([st.keep], [st.flow]), st)
  {
    hide CheckLoop, CheckBlock, CheckIf, CheckSwitch, CheckTry, CheckOp, CheckLoopExit, CheckFunctionExit;
  }

  lemma NullLoopAccepted()
    ensures Accepted(NULL_LOOP, false)
  {
    hide Check, CheckLoop;
    Begins();
    NullTurnChecked();
    LoopOn(NULL_TURN, Paths([map[0 := Live]], [OwnerFlow(LivePointer)]), Live, LivePointer, Deleted, Null);
    OpOn(Delete, START.(keepScopes := [[], [0]], flowScopes := [[], [0]]), MaybeDeleted, MaybeNull, Deleted,
         DeletedPointer);
    LoopThen(NULL_TURN, One(Do(Delete, 0)), Owner(Live, LivePointer));
    var tail := Two(While(NULL_TURN), Do(Delete, 0));
    assert CheckAll(NULL_LOOP, PushScopes(START)) == CheckAll(tail, Owner(Live, LivePointer));
    assert CheckAll(One(Do(Delete, 0)), Owner(MaybeDeleted, MaybeNull)) == Owner(Deleted, DeletedPointer);
    Ends(NULL_LOOP, DeletedPointer);
  }

  lemma NullLoopUncovered()
    ensures ResolvedAll(NULL_LOOP, 0, Outside) && !CoveredIn(NULL_LOOP, 0)
  {
    hide CoveredAll, MentionsAll, Covered, ResolvedAll, Resolved;
    NullTurnMentions();
    NullLoopResolved();
    ChangedAndNulled(NULL_TURN, One(Do(Delete, 0)), Terms(false, false, true));
  }

  lemma NullTurnMentions()
    ensures MentionsAll(NULL_TURN, 0, Changing) && MentionsAll(NULL_TURN, 0, Nulling)
  {
  }

  lemma NullLoopResolved()
    ensures ResolvedAll(NULL_LOOP, 0, Outside)
  {
    assert ResolvedAll(NULL_TURN, 0, Inside(RawOwner));
  }

  lemma LoopExcluded(body: Stmts, terms: Terms)
    requires MentionsAll(body, 0, Changing) && MentionsAll(body, 0, Nulling)
    ensures !Covered(While(body), 0, Inside(RawOwner), terms)
  {
    hide MentionsAll, ResumeAll, CoveredAll;
  }

  lemma HeadExcluded(s: Stmt, tail: Stmts, k: Status, terms: Terms)
    ensures !Covered(s, 0, k, terms) ==> !CoveredAll(Then(s, tail), 0, k, terms)
    ensures !CoveredAll(tail, 0, After(s, 0, k), terms.Past(s, 0, k)) ==> !CoveredAll(Then(s, tail), 0, k, terms)
  {
    hide Covered;
  }

  /** An owner changed and set to null in a loop around which it is declared. */
  lemma ChangedAndNulled(body: Stmts, tail: Stmts, terms: Terms)
    requires MentionsAll(body, 0, Changing) && MentionsAll(body, 0, Nulling)
    ensures !CoveredAll(Then(Do(NewRaw, 0), Then(While(body), tail)), 0, Outside, terms)
  {
    hide MentionsAll, Covered, CoveredAll;
    LoopExcluded(body, terms);
    HeadExcluded(While(body), tail, Inside(RawOwner), terms);
    HeadExcluded(Do(NewRaw, 0), Then(While(body), tail), Outside, terms);
  }

  lemma NullTurn(cs: seq<Choice>, a: Store, b: Store, c: Store, d: Store)
    requires Exec(Deref, 0, a) == b && Exec(Delete, 0, b) == c && Exec(SetNull, 0, c) == d
    ensures RunAll(Three(Do(Deref, 0), Do(Delete, 0), Do(SetNull, 0)), cs, a) == Run(Normal, cs, d)
  {
    hide Exec;
    OpThen(Do(Deref, 0), Two(Do(Delete, 0), Do(SetNull, 0)), cs, a);
    OpThen(Do(Delete, 0), One(Do(SetNull, 0)), cs, b);
    OpThen(Do(SetNull, 0), End, cs, c);
  }

  lemma OpThen(s: Stmt, tail: Stmts, cs: seq<Choice>, m: Store)
    requires s.Do?
    ensures RunAll(Then(s, tail), cs, m) == RunAll(tail, cs, Exec(s.op, s.x, m))
  {
  }

  lemma NullLoopRuns()
    ensures Fault(NullDereferenced, 0) in RunFunction(NULL_LOOP, [Pick(1), Pick(1), Pick(0)]).store.faults
  {
    var cs := [Pick(1), Pick(1), Pick(0)];
    var m0, m1, m2 := Holding(Ptr(0), {}, 1, {}), Holding(Ptr(0), {0}, 1, {}), Holding(Nil, {}, 1, {});
    var m3 := Holding(Nil, {}, 1, {Fault(NullDereferenced, 0)});
    assert cs[1..] == [Pick(1), Pick(0)] && cs[1..][1..] == [Pick(0)] && cs[1..][1..][1..] == [];
    NullOps(m0, m1, m2, m3);
    hide Exec, RunLoop, RunAll;
    NullTurn(cs[1..], m1, m1, m0, m2);
    NullTurn(cs[1..][1..], m2, m3, m3, m3);
    LeaveNone(m2);
    LeaveNone(m3);
    assert Decls(NULL_TURN) == {};
    LoopTurns(NULL_TURN, cs, m1, Run(Normal, cs[1..], m2));
    LoopTurns(NULL_TURN, cs[1..], m2, Run(Normal, cs[1..][1..], m3));
    LoopStops(NULL_TURN, cs[1..][1..], m3);
    NullLoopSteps(cs, m1, m3);
  }

  lemma NullOps(m0: Store, m1: Store, m2: Store, m3: Store)
    requires m0 == Holding(Ptr(0), {}, 1, {}) && m1 == Holding(Ptr(0), {0}, 1, {}) && m2 == Holding(Nil, {}, 1, {})
    requires m3 == Holding(Nil, {}, 1, {Fault(NullDereferenced, 0)})
    ensures Exec(NewRaw, 0, EMPTY) == m1
    ensures Exec(Deref, 0, m1) == m1 && Exec(Delete, 0, m1) == m0 && Exec(SetNull, 0, m0) == m2
    ensures Exec(Deref, 0, m2) == m3 && Exec(Delete, 0, m3) == m3 && Exec(SetNull, 0, m3) == m3
  {
    assert Exec(SetNull, 0, m0).env == m2.env && Exec(SetNull, 0, m3).env == m3.env;
  }

  lemma NullLoopSteps(cs: seq<Choice>, m1: Store, m3: Store)
    requires Exec(NewRaw, 0, EMPTY) == m1 && RunLoop(NULL_TURN, cs, m1) == Run(Normal, [], m3)
    requires Exec(Delete, 0, m3) == m3 && Fault(NullDereferenced, 0) in m3.faults
    ensures Fault(NullDereferenced, 0) in RunFunction(NULL_LOOP, cs).store.faults
  {
    hide RunLoop, Exec;
    OpThen(Do(NewRaw, 0), Two(While(NULL_TURN), Do(Delete, 0)), cs, EMPTY);
    OpThen(Do(Delete, 0), End, [], m3);
    assert RunAll(NULL_LOOP, cs, EMPTY) == Run(Normal, [], m3);
  }

  lemma NullComesBack()
    ensures Misbehaves(NULL_LOOP, 0, NullDereferenced)
  {
    hide *;
    NullLoopAccepted();
    NullLoopRuns();
    NullLoopUncovered();
    Shows(NULL_LOOP, 0, NullDereferenced, [Pick(1), Pick(1), Pick(0)]);
  }

  // ---- null before a loop ----

  /** From null, `p = new raw T();` in a loop is taken to happen at most once. */
  const NULL_BEFORE: Stmts := Then(Do(NewRaw, 0), Then(Do(Delete, 0), NULL_RENEWED))

  const NULL_RENEWED: Stmts := Three(Do(SetNull, 0), While(One(Do(Renew, 0))), Do(Delete, 0))

  lemma RenewChecked()
    ensures CheckAll(One(Do(Renew, 0)), InLoop(Deleted, Null)) == With(InLoop(Deleted, Null), Live, LivePointer)
  {
    hide Check;
    var st := InLoop(Deleted, Null);
    InLoopIs(Deleted, Null);
    OpOn(Renew, st, Deleted, Null, Live, LivePointer);
    OpsThen(Renew, End, st, Deleted, Null, Live, LivePointer);
    assert With(st, Deleted, Null) == st;
  }

  lemma NullBeforeAccepted()
    ensures Accepted(NULL_BEFORE, false)
  {
    hide Check, CheckLoop;
    var st := START.(keepScopes := [[], [0]], flowScopes := [[], [0]]);
    Begins();
    RenewChecked();
    LoopOn(One(Do(Renew, 0)), Paths([map[0 := Deleted]], [OwnerFlow(Null)]), Deleted, Null, Live, LivePointer);
    OpOn(Delete, st, Live, LivePointer, Deleted, DeletedPointer);
    OpOn(SetNull, st, Deleted, DeletedPointer, Deleted, Null);
    OpOn(Delete, st, MaybeDeleted, MaybeNull, Deleted, DeletedPointer);
    LoopThen(One(Do(Renew, 0)), One(Do(Delete, 0)), Owner(Deleted, Null));
    OpsThen(Delete, NULL_RENEWED, st, Live, LivePointer, Deleted, DeletedPointer);
    OpsThen(SetNull, Two(While(One(Do(Renew, 0))), Do(Delete, 0)), st, Deleted, DeletedPointer, Deleted, Null);
    OpsThen(Delete, End, st, MaybeDeleted, MaybeNull, Deleted, DeletedPointer);
    assert CheckAll(NULL_BEFORE, PushScopes(START)) == CheckAll(Then(Do(Delete, 0), NULL_RENEWED),
                                                                Owner(Live, LivePointer));
    Ends(NULL_BEFORE, DeletedPointer);
  }

  lemma NullBeforeUncovered()
    ensures ResolvedAll(NULL_BEFORE, 0, Outside) && !CoveredIn(NULL_BEFORE, 0)
  {
    hide CoveredAll, Covered;
    var terms := Terms(true, false, true);
    var loop := While(One(Do(Renew, 0)));
    RenewInLoop(loop, terms);
    HeadExcluded(loop, One(Do(Delete, 0)), Inside(RawOwner), terms);
    HeadExcluded(Do(SetNull, 0), Two(loop, Do(Delete, 0)), Inside(RawOwner), Terms(false, false, true));
    HeadExcluded(Do(Delete, 0), NULL_RENEWED, Inside(RawOwner), Terms(false, false, true));
    HeadExcluded(Do(NewRaw, 0), Then(Do(Delete, 0), NULL_RENEWED), Outside, Terms(false, false, true));
  }

  lemma RenewInLoop(s: Stmt, terms: Terms)
    requires s == While(One(Do(Renew, 0))) && terms.nulled
    ensures !Covered(s, 0, Inside(RawOwner), terms)
  {
    assert MentionsAll(s.body, 0, Changing);
  }

  lemma NullBeforeRuns()
    ensures Fault(Overwritten, 0) in RunFunction(NULL_BEFORE, [Pick(1), Pick(1), Pick(0)]).store.faults
  {
    var cs, loop := [Pick(1), Pick(1), Pick(0)], One(Do(Renew, 0));
    var m0, m1, m2 := Holding(Ptr(0), {0}, 1, {}), Holding(Ptr(0), {}, 1, {}), Holding(Nil, {}, 1, {});
    var m3, m4 := Holding(Ptr(1), {1}, 2, {}), Holding(Ptr(2), {1, 2}, 3, {Fault(Overwritten, 0)});
    assert cs[1..] == [Pick(1), Pick(0)] && cs[1..][1..] == [Pick(0)] && cs[1..][1..][1..] == [];
    NullBeforeOps(m0, m1, m2, m3, m4);
    hide Exec, RunLoop, RunBlock;
    OpBlockRuns(Renew, cs[1..], m2, m3);
    OpBlockRuns(Renew, cs[1..][1..], m3, m4);
    LoopTurns(loop, cs, m2, Run(Normal, cs[1..], m3));
    LoopTurns(loop, cs[1..], m3, Run(Normal, cs[1..][1..], m4));
    LoopStops(loop, cs[1..][1..], m4);
    NullBeforeSteps(cs, m0, m1, m2, m4);
  }

  lemma NullBeforeOps(m0: Store, m1: Store, m2: Store, m3: Store, m4: Store)
    requires m0 == Holding(Ptr(0), {0}, 1, {}) && m1 == Holding(Ptr(0), {}, 1, {}) && m2 == Holding(Nil, {}, 1, {})
    requires m3 == Holding(Ptr(1), {1}, 2, {}) && m4 == Holding(Ptr(2), {1, 2}, 3, {Fault(Overwritten, 0)})
    ensures Exec(NewRaw, 0, EMPTY) == m0 && Exec(Delete, 0, m0) == m1 && Exec(SetNull, 0, m1) == m2
    ensures Exec(Renew, 0, m2) == m3 && Exec(Renew, 0, m3) == m4
  {
  }

  lemma NullBeforeSteps(cs: seq<Choice>, m0: Store, m1: Store, m2: Store, m4: Store)
    requires Exec(NewRaw, 0, EMPTY) == m0 && Exec(Delete, 0, m0) == m1 && Exec(SetNull, 0, m1) == m2
    requires RunLoop(One(Do(Renew, 0)), cs, m2) == Run(Normal, [], m4) && Fault(Overwritten, 0) in m4.faults
    ensures Fault(Overwritten, 0) in RunFunction(NULL_BEFORE, cs).store.faults
  {
    hide RunLoop;
    OpThen(Do(NewRaw, 0), Then(Do(Delete, 0), NULL_RENEWED), cs, EMPTY);
    OpThen(Do(Delete, 0), NULL_RENEWED, cs, m0);
    OpThen(Do(SetNull, 0), Two(While(One(Do(Renew, 0))), Do(Delete, 0)), cs, m1);
    OpThen(Do(Delete, 0), End, [], m4);
    assert RunAll(NULL_BEFORE, cs, EMPTY) == Run(Normal, [], Exec(Delete, 0, m4));
    assert m4.faults <= Exec(Delete, 0, m4).faults;
  }

  lemma NullHidesOverwrite()
    ensures Misbehaves(NULL_BEFORE, 0, Overwritten)
  {
    hide *;
    NullBeforeAccepted();
    NullBeforeRuns();
    NullBeforeUncovered();
    Shows(NULL_BEFORE, 0, Overwritten, [Pick(1), Pick(1), Pick(0)]);
  }

  // ---- do-while ----

  /** The exits of a do-while leave out its entry state, so the owner is taken to be deleted
      once however often the body runs. */
  const DELETE_AGAIN: Stmts := Two(Do(NewRaw, 0), DoWhile(One(Do(Delete, 0))))

  lemma DeleteAgainAccepted()
    ensures Accepted(DELETE_AGAIN, false)
  {
    hide CheckLoop, CheckOp;
    Begins();
    InLoopIs(Live, LivePointer);
    OpOn(Delete, InLoop(Live, LivePointer), Live, LivePointer, Deleted, DeletedPointer);
    LoopOn(One(Do(Delete, 0)), Paths([], []), Live, LivePointer, Deleted, DeletedPointer);
    Ends(DELETE_AGAIN, DeletedPointer);
  }

  lemma DeleteAgainUncovered()
    ensures ResolvedAll(DELETE_AGAIN, 0, Outside) && !CoveredIn(DELETE_AGAIN, 0)
  {
  }

  lemma DeleteAgainRuns()
    ensures Fault(DoubleFree, 0) in RunFunction(DELETE_AGAIN, [Pick(1), Pick(0)]).store.faults
  {
    var cs, loop := [Pick(1), Pick(0)], One(Do(Delete, 0));
    var m1, m2 := Holding(Ptr(0), {0}, 1, {}), Holding(Ptr(0), {}, 1, {});
    var m3 := Holding(Ptr(0), {}, 1, {Fault(DoubleFree, 0)});
    assert Exec(NewRaw, 0, EMPTY) == m1;
    assert cs[1..] == [Pick(0)] && cs[1..][1..] == [];
    assert Exec(Delete, 0, m1) == m2 && Exec(Delete, 0, m2) == m3;
    hide Exec;
    OpBlockRuns(Delete, cs, m1, m2);
    OpBlockRuns(Delete, cs[1..], m2, m3);
    LoopTurns(loop, cs, m2, Run(Normal, cs[1..], m3));
    LoopStops(loop, cs[1..], m3);
  }

  lemma DoWhileDeletesTwice()
    ensures Misbehaves(DELETE_AGAIN, 0, DoubleFree)
  {
    hide *;
    DeleteAgainAccepted();
    DeleteAgainRuns();
    DeleteAgainUncovered();
    Shows(DELETE_AGAIN, 0, DoubleFree, [Pick(1), Pick(0)]);
  }

  // ---- a task in a do-while ----

  /** The same for a task: `do { await t; } while (c)` is taken to await it once. */
  const AWAIT_AGAIN: Stmts := Two(Do(Spawn, 0), DoWhile(One(Do(Await, 0))))

  /** `st` with local 0, not an owner, as the only entry of the tables. */
  function Having(st: State, f: Flow): State { st.(keep := map[], flow := map[0 := f]) }

  /** The state in the scope of one local that is not a raw owner. */
  function Local0(f: Flow): State { Having(START.(keepScopes := [[], []], flowScopes := [[], [0]]), f) }

  const WAITED := Flow(Initialized, NotPointer, Awaited)

  lemma SpawnBegins()
    ensures Check(Do(Spawn, 0), PushScopes(START)) == Local0(FRESH_TASK)
  {
    var s := PushScopes(START);
    assert ButLast(s.flowScopes) == [[]] && Last(s.flowScopes) + [0] == [0];
  }

  lemma AwaitTurn()
    ensures CheckBlock(One(Do(Await, 0)), EnterLoop(Local0(FRESH_TASK))) == EnterLoop(Local0(WAITED))
  {
    var st := EnterLoop(Local0(FRESH_TASK));
    var s := PushScopes(st);
    var r := Having(s, WAITED);
    assert s.flow[0 := WAITED] == r.flow && s.diagnostics + ([] + []) == s.diagnostics;
    assert CheckAll(One(Do(Await, 0)), s) == r;
    EmptyScope(r);
    assert ButLast(r.keepScopes) == st.keepScopes && ButLast(r.flowScopes) == st.flowScopes;
  }

  lemma AwaitLoop()
    ensures Check(DoWhile(One(Do(Await, 0))), Local0(FRESH_TASK)) == Local0(WAITED)
  {
    hide CheckBlock, MergeKeepPaths, MergeFlowPaths;
    AwaitTurn();
    var s := EnterLoop(Local0(WAITED));
    var p := AddPath(Paths([], []), s);
    assert p.keeps + Last(s.breakKeeps) == [s.keep] && p.flows + Last(s.breakFlows) == [s.flow];
    OneLocal(FRESH_TASK, WAITED);
  }

  lemma OneLocal(f: Flow, g: Flow)
    ensures MergeKeepPaths(map[], [map[]]) == map[]
    ensures MergeFlowPaths(map[0 := f], [map[0 := g]]) == map[0 := g]
  {
  }

  lemma AwaitAgainAccepted()
    ensures Accepted(AWAIT_AGAIN, false)
  {
    hide Check;
    SpawnBegins();
    AwaitLoop();
    assert CheckAll(One(DoWhile(One(Do(Await, 0)))), Local0(FRESH_TASK)) == Local0(WAITED);
    LocalEnds(AWAIT_AGAIN, WAITED);
  }

  lemma AwaitAgainUncovered()
    ensures ResolvedAll(AWAIT_AGAIN, 0, Outside) && !CoveredIn(AWAIT_AGAIN, 0)
  {
  }

  lemma AwaitAgainRuns()
    ensures Fault(DoubleAwaited, 0) in RunFunction(AWAIT_AGAIN, [Pick(1), Pick(0)]).store.faults
  {
    var cs, loop := [Pick(1), Pick(0)], One(Do(Await, 0));
    var m1, m2 := Store(map[0 := Handle(0)], {}, {0}, 1, {}), Holding(Handle(0), {}, 1, {});
    var m3 := Holding(Handle(0), {}, 1, {Fault(DoubleAwaited, 0)});
    assert Exec(Spawn, 0, EMPTY) == m1;
    assert cs[1..] == [Pick(0)] && cs[1..][1..] == [];
    assert Exec(Await, 0, m1) == m2 && Exec(Await, 0, m2) == m3;
    hide Exec;
    OpBlockRuns(Await, cs, m1, m2);
    OpBlockRuns(Await, cs[1..], m2, m3);
    LoopTurns(loop, cs, m2, Run(Normal, cs[1..], m3));
    LoopStops(loop, cs[1..], m3);
  }

  lemma DoWhileAwaitsTwice()
    ensures Misbehaves(AWAIT_AGAIN, 0, DoubleAwaited)
  {
    hide *;
    AwaitAgainAccepted();
    AwaitAgainRuns();
    AwaitAgainUncovered();
    Shows(AWAIT_AGAIN, 0, DoubleAwaited, [Pick(1), Pick(0)]);
  }

  // ---- exceptions ----

  /** A call that throws leaves the scope of the owner unseen. */
  const THROWS: Stmts := Three(Do(NewRaw, 0), Block(One(Call(false))), Do(Delete, 0))

  lemma QuietBlock(st: State)
    requires |st.keepScopes| == |st.flowScopes|
    ensures Check(Block(One(Call(false))), st) == st
  {
    var s := PushScopes(st);
    assert CheckAll(One(Call(false)), s) == s;
    EmptyScope(s);
    assert ButLast(s.keepScopes) == st.keepScopes && ButLast(s.flowScopes) == st.flowScopes;
  }

  lemma ThrowsAccepted()
    ensures Accepted(THROWS, false)
  {
    hide CheckOp, CheckBlock;
    Begins();
    QuietBlock(Owner(Live, LivePointer));
    OpOn(Delete, Owner(Live, LivePointer), Live, LivePointer, Deleted, DeletedPointer);
    Ends(THROWS, DeletedPointer);
  }

  lemma ThrowsUncovered()
    ensures ResolvedAll(THROWS, 0, Outside) && !CoveredIn(THROWS, 0)
  {
  }

  lemma ThrowsRuns()
    ensures Fault(Dropped, 0) in RunFunction(THROWS, [Pick(1)]).store.faults
  {
    var m1 := Holding(Ptr(0), {0}, 1, {});
    assert Exec(NewRaw, 0, EMPTY) == m1;
    assert RunAll(THROWS, [Pick(1)], EMPTY).store == m1;
    assert 0 in Decls(THROWS) && Holds(m1, 0);
  }

  lemma ThrowingCallLeaks()
    ensures Misbehaves(THROWS, 0, Dropped)
  {
    hide *;
    ThrowsAccepted();
    ThrowsRuns();
    ThrowsUncovered();
    Shows(THROWS, 0, Dropped, [Pick(1)]);
  }

  // ---- try ----

  /** A catch clause starts from the tables before the try, whatever the body did. */
  const CATCH_AGAIN: Stmts := Three(Do(NewRaw, 0), CATCHING, Do(Delete, 0))

  const CATCHING: Stmt := Try(CATCH_BODY, Arm(Caught(1), End, NoArms), NoElse)

  const CATCH_BODY: Stmts := Two(Do(Delete, 0), Throw)

  lemma CatchBodyBlock()
    ensures CheckBlock(CATCH_BODY, Owner(Live, LivePointer)) == Owner(Deleted, DeletedPointer).(terminated := true)
  {
    hide Check;
    var s0 := PushScopes(Owner(Live, LivePointer));
    var s1 := With(s0, Deleted, DeletedPointer);
    assert With(s0, Live, LivePointer) == s0;
    OpOn(Delete, s0, Live, LivePointer, Deleted, DeletedPointer);
    ThrowChecked(s1);
    OpsThen(Delete, One(Throw), s0, Live, LivePointer, Deleted, DeletedPointer);
    assert CheckAll(One(Throw), s1) == s1.(terminated := true);
    EmptyScope(s1.(terminated := true));
    assert ButLast(s1.keepScopes) == [[], [0]] && ButLast(s1.flowScopes) == [[], [0]];
  }

  /** With its owner deleted, a throw inside a block reports nothing. */
  lemma ThrowChecked(st: State)
    requires st == With(PushScopes(Owner(Live, LivePointer)), Deleted, DeletedPointer)
    ensures Check(Throw, st) == st.(terminated := true)
  {
    hide KeepScopeReports, TaskScopeReports;
    assert From(st.keepScopes, 0) == [[], [0], []] && From(st.flowScopes, 0) == [[], [0], []];
    ThreeScopes(From(st.keepScopes, 0), st.keep, st.flow);
    ThreeScopes(From(st.flowScopes, 0), st.keep, st.flow);
  }

  lemma ThreeScopes(scopes: seq<seq<Id>>, keep: KeepMap, flow: FlowMap)
    requires |scopes| == 3 && scopes[0] == [] && scopes[1] == [0] && scopes[2] == []
    requires 0 in keep && keep[0] == Deleted && 0 in flow && flow[0].task == NotTask
    ensures KeepScopeReports(scopes, keep) == [] && TaskScopeReports(scopes, flow) == []
  {
    var two, owner := ButLast(scopes), scopes[1];
    var one := ButLast(two);
    assert |owner| == 1 && ButLast(owner) == [] && KeepReports(owner, keep) == [] && TaskReports(owner, flow) == [];
    assert KeepScopeReports(ButLast(one), keep) == [] && TaskScopeReports(ButLast(one), flow) == [];
    assert KeepScopeReports(one, keep) == [] && TaskScopeReports(one, flow) == [];
    assert KeepScopeReports(two, keep) == [] && TaskScopeReports(two, flow) == [];
  }

  /** The catch clause, from the tables before the try. */
  lemma CatchChecked(st: State, p: Paths)
    requires st.keepScopes == [[], [0]] && st.flowScopes == [[], [0]] && st.finallyDepth == 0
    ensures var keep, flow := map[0 := Live], OwnerFlow(LivePointer);
            CheckArms(Catches, Arm(Caught(1), End, NoArms), {}, keep, flow, st, p) ==
            (EnterBranch(keep, flow, st), Paths(p.keeps + [keep], p.flows + [flow[1 := FRESH_RAW]]))
  {
    hide CheckBlock, EnterArm, PopScopes;
    var keep, flow := map[0 := Live], OwnerFlow(LivePointer);
    var s0 := EnterBranch(keep, flow, st);
    var s1 := Clause(s0);
    ClauseEntered(s0);
    ClauseWalked(s1);
    CatchScopeLeft(s0, s1);
    ArmsOfOne(Caught(1), End, keep, flow, st, p);
  }

  lemma ArmsOfOne(tag: Label, body: Stmts, keep: KeepMap, flow: FlowMap, st: State, p: Paths)
    ensures var s1 := CheckBlock(body, EnterArm(Catches, tag, {}, EnterBranch(keep, flow, st)));
            CheckArms(Catches, Arm(tag, body, NoArms), {}, keep, flow, st, p) == (PopScopes(s1), AddPath(p, s1))
  {
    hide CheckBlock, EnterArm, PopScopes, AddPath;
  }

  /** In the scope of the clause. */
  function Clause(st: State): State {
    st.(keepScopes := [[], [0], []], flowScopes := [[], [0], [1]], flow := st.flow[1 := FRESH_RAW])
  }

  lemma ClauseEntered(st: State)
    requires st.keepScopes == [[], [0]] && st.flowScopes == [[], [0]]
    ensures EnterArm(Catches, Caught(1), {}, st) == Clause(st)
  {
    var pushed := PushScopes(st).flowScopes;
    assert pushed == [[], [0], []] && ButLast(pushed) == [[], [0]] && Last(pushed) + [1] == [1];
  }

  lemma ClauseWalked(st: State)
    requires |st.keepScopes| == |st.flowScopes|
    ensures CheckBlock(End, st) == st
  {
    var s := PushScopes(st);
    EmptyScope(s);
    assert ButLast(s.keepScopes) == st.keepScopes && ButLast(s.flowScopes) == st.flowScopes;
  }

  /** Leaving the scope of the clause forgets its parameter only. */
  lemma CatchScopeLeft(s0: State, s1: State)
    requires s1 == s0.(keepScopes := [[], [0], []], flowScopes := [[], [0], [1]], flow := s0.flow[1 := FRESH_RAW])
    requires s0.keepScopes == [[], [0]] && s0.flowScopes == [[], [0]] && 1 !in s0.flow && !s0.terminated
    ensures PopScopes(s1) == s0
  {
    hide KeepScopeReports, TaskScopeReports;
    assert From(s1.flowScopes, 2) == [[1]] && From(s1.keepScopes, 2) == [[]];
    CatchScopeReports(s1.keep, s1.flow);
    assert Last(s1.flowScopes) == [1] && Last(s1.keepScopes) == [];
    assert ButLast(s1.keepScopes) == [[], [0]] && ButLast(s1.flowScopes) == [[], [0]];
    var one: seq<Id>, none: seq<Id> := [1], [];
    assert one[0] == 1 && 1 in IdsOf(one);
    assert IdsOf(one) == {1} && IdsOf(none) == {};
    assert s1.flow - {1} == s0.flow && s1.keep - {} == s0.keep;
  }

  lemma CatchScopeReports(keep: KeepMap, flow: FlowMap)
    requires 1 in flow && flow[1] == FRESH_RAW
    ensures KeepScopeReports([[]], keep) == [] && TaskScopeReports([[1]], flow) == []
  {
    var scopes: seq<seq<Id>> := [[1]];
    NoKeeps(keep);
    assert ButLast([1]) == [] && TaskReports(ButLast([1]), flow) == [] && TaskReports([1], flow) == [];
    assert ButLast(scopes) == [] && TaskScopeReports(ButLast(scopes), flow) == [];
  }

  lemma CatchingChecked()
    ensures Check(CATCHING, Owner(Live, LivePointer)) == Owner(Live, LivePointer)
  {
    hide CheckBlock, CheckArms;
    var st := Owner(Live, LivePointer);
    CatchBodyBlock();
    var s1 := Owner(Deleted, DeletedPointer).(terminated := true);
    assert EnterBranch(st.keep, st.flow, st) == st;
    CatchChecked(s1, Paths([], []));
    CatchMerges();
  }

  lemma CatchMerges()
    ensures var keep, flow := map[0 := Live], OwnerFlow(LivePointer);
            MergeKeepPaths(keep, [] + [keep]) == keep && MergeFlowPaths(flow, [] + [flow[1 := FRESH_RAW]]) == flow
  {
    var flow := OwnerFlow(LivePointer);
    var paths := [] + [flow[1 := FRESH_RAW]];
    assert JoinFlow(0, flow[0], paths) == flow[0];
  }

  lemma CatchAgainAccepted()
    ensures Accepted(CATCH_AGAIN, false)
  {
    hide Check;
    Begins();
    CatchingChecked();
    OpOn(Delete, START.(keepScopes := [[], [0]], flowScopes := [[], [0]]), Live, LivePointer, Deleted, DeletedPointer);
    CatchAgainChecked();
    Ends(CATCH_AGAIN, DeletedPointer);
  }

  lemma CatchAgainChecked()
    requires Check(Do(NewRaw, 0), PushScopes(START)) == Owner(Live, LivePointer)
    requires Check(CATCHING, Owner(Live, LivePointer)) == Owner(Live, LivePointer)
    requires Check(Do(Delete, 0), Owner(Live, LivePointer)) == Owner(Deleted, DeletedPointer)
    ensures CheckAll(CATCH_AGAIN, PushScopes(START)) == Owner(Deleted, DeletedPointer)
  {
    hide Check;
    assert CheckAll(One(Do(Delete, 0)), Owner(Live, LivePointer)) == Owner(Deleted, DeletedPointer);
    assert CheckAll(Two(CATCHING, Do(Delete, 0)), Owner(Live, LivePointer)) == Owner(Deleted, DeletedPointer);
  }

  lemma CatchAgainUncovered()
    ensures ResolvedAll(CATCH_AGAIN, 0, Outside) && !CoveredIn(CATCH_AGAIN, 0)
  {
    hide CoveredAll, MentionsAll, Covered, ResolvedAll, Resolved, Mentions;
    CatchAgainResolved();
    DeleteMentioned();
    ChangedInTry(CATCHING, One(Do(Delete, 0)), Terms(false, false, true));
  }

  lemma CatchAgainResolved()
    ensures ResolvedAll(CATCH_AGAIN, 0, Outside)
  {
    assert ResolvedAll(CATCH_BODY, 0, Inside(RawOwner))
        && ResolvedArms(Arm(Caught(1), End, NoArms), 0, Inside(RawOwner));
  }

  lemma DeleteMentioned()
    ensures Mentions(CATCHING, 0, Changing)
  {
    assert MentionsAll(CATCH_BODY, 0, Changing);
  }

  /** An owner changed in a try. */
  lemma ChangedInTry(s: Stmt, tail: Stmts, terms: Terms)
    requires s.Try? && Mentions(s, 0, Changing)
    ensures !CoveredAll(Then(Do(NewRaw, 0), Then(s, tail)), 0, Outside, terms)
  {
    hide Mentions, CoveredAll;
    assert !Covered(s, 0, Inside(RawOwner), terms);
    hide Covered;
    HeadExcluded(s, tail, Inside(RawOwner), terms);
    HeadExcluded(Do(NewRaw, 0), Then(s, tail), Outside, terms);
  }

  lemma CatchAgainRuns()
    ensures Fault(DoubleFree, 0) in RunFunction(CATCH_AGAIN, [Pick(0)]).store.faults
  {
    var cs := [Pick(0)];
    var m1, m2 := Holding(Ptr(0), {0}, 1, {}), Holding(Ptr(0), {}, 1, {});
    var m3 := Holding(Ptr(0), {}, 1, {Fault(DoubleFree, 0)});
    assert Exec(NewRaw, 0, EMPTY) == m1 && Exec(Delete, 0, m1) == m2 && Exec(Delete, 0, m2) == m3;
    CaughtRuns(m2);
    OpThen(Do(Delete, 0), One(Throw), cs, m1);
    LeaveNone(m2);
    assert Decls(CATCH_BODY) == {} && cs[1..] == [];
    assert RunBlock(CATCH_BODY, cs, m1) == Run(Threw, cs, m2);
    CatchAgainSteps(cs, m1, m2, m3);
  }

  /** The catch clause does nothing but bind its parameter. */
  lemma CaughtRuns(m: Store)
    requires m == Holding(Ptr(0), {}, 1, {})
    ensures RunArm(Arm(Caught(1), End, NoArms), 0, true, [], m) == Run(Normal, [], m)
  {
    var n := Bind(true, Caught(1), m);
    assert n == m.(env := m.env[1 := Local(true)]);
    LeaveNone(n);
    assert RunBlock(End, [], n) == Run(Normal, [], n);
    assert n.env - {1} == m.env && !Holds(n, 1);
    assert (set x | x in {1} && Holds(n, x) :: Fault(Dropped, x)) == {};
  }

  lemma CatchAgainSteps(cs: seq<Choice>, m1: Store, m2: Store, m3: Store)
    requires cs == [Pick(0)] && Exec(NewRaw, 0, EMPTY) == m1 && Exec(Delete, 0, m2) == m3
             && Fault(DoubleFree, 0) in m3.faults
    requires RunBlock(CATCH_BODY, cs, m1) == Run(Threw, cs, m2)
    requires RunArm(Arm(Caught(1), End, NoArms), 0, true, [], m2) == Run(Normal, [], m2)
    ensures Fault(DoubleFree, 0) in RunFunction(CATCH_AGAIN, cs).store.faults
  {
    hide RunBlock, RunArm, Exec;
    assert cs[1..] == [];
    assert RunGuarded(CATCHING, cs, m1) == Run(Normal, [], m2);
    assert RunElse(NoElse, [], m2) == Run(Normal, [], m2);
    assert RunTry(CATCHING, cs, m1) == Run(Normal, [], m2);
    OpThen(Do(NewRaw, 0), Two(CATCHING, Do(Delete, 0)), cs, EMPTY);
    OpThen(Do(Delete, 0), End, [], m2);
    CatchAgainEnds(cs, m1, m2, m3);
  }

  lemma CatchAgainEnds(cs: seq<Choice>, m1: Store, m2: Store, m3: Store)
    requires RunStmt(CATCHING, cs, m1) == Run(Normal, [], m2) && Fault(DoubleFree, 0) in m3.faults
    requires RunAll(CATCH_AGAIN, cs, EMPTY) == RunAll(Two(CATCHING, Do(Delete, 0)), cs, m1)
    requires RunAll(One(Do(Delete, 0)), [], m2) == RunAll(End, [], m3)
    ensures Fault(DoubleFree, 0) in RunFunction(CATCH_AGAIN, cs).store.faults
  {
    hide RunStmt;
    assert RunAll(Two(CATCHING, Do(Delete, 0)), cs, m1) == RunAll(One(Do(Delete, 0)), [], m2);
    assert RunAll(CATCH_AGAIN, cs, EMPTY).store == m3;
  }

  lemma CatchDeletesTwice()
    ensures Misbehaves(CATCH_AGAIN, 0, DoubleFree)
  {
    hide *;
    CatchAgainAccepted();
    CatchAgainRuns();
    CatchAgainUncovered();
    Shows(CATCH_AGAIN, 0, DoubleFree, [Pick(0)]);
  }

  // ---- finally ----

  /** A finally block runs even if the try body stopped before its assignment. */
  const FINALLY_READS: Stmts := Two(Do(Declare, 0), Try(READ_BODY, NoArms, ElseBody(One(Do(Read, 0)))))

  const READ_BODY: Stmts := Two(Call(false), Do(Assign, 0))

  /** The state in the scope of one plain local. */
  function Plainly(init: Init, depth: nat): State {
    Local0(Flow(init, NotPointer, NotTask)).(finallyDepth := depth)
  }

  lemma DeclareBegins()
    ensures Check(Do(Declare, 0), PushScopes(START)) == Plainly(Uninitialized, 0)
  {
    var s := PushScopes(START);
    assert ButLast(s.flowScopes) == [[]] && Last(s.flowScopes) + [0] == [0];
  }

  lemma ReadBodyBlock()
    ensures CheckBlock(READ_BODY, Plainly(Uninitialized, 0)) == Plainly(Initialized, 0)
  {
    var s := PushScopes(Plainly(Uninitialized, 0));
    var r := Check(Do(Assign, 0), s);
    assert s.flow[0 := Flow(Initialized, NotPointer, NotTask)] == map[0 := Flow(Initialized, NotPointer, NotTask)];
    assert r == s.(flow := map[0 := Flow(Initialized, NotPointer, NotTask)]);
    assert CheckAll(READ_BODY, s) == r;
    EmptyScope(r);
    assert ButLast(r.keepScopes) == [[], []] && ButLast(r.flowScopes) == [[], [0]];
  }

  lemma ReadFinallyBlock()
    ensures CheckBlock(One(Do(Read, 0)), Plainly(Initialized, 1)) == Plainly(Initialized, 1)
  {
    var s := PushScopes(Plainly(Initialized, 1));
    assert Check(Do(Read, 0), s) == s;
    assert CheckAll(One(Do(Read, 0)), s) == s;
    EmptyScope(s);
    assert ButLast(s.keepScopes) == [[], []] && ButLast(s.flowScopes) == [[], [0]];
  }

  lemma ReadGuarded()
    ensures CheckGuarded(Try(READ_BODY, NoArms, ElseBody(One(Do(Read, 0)))), Plainly(Uninitialized, 0)) ==
            Plainly(Initialized, 0)
  {
    hide CheckBlock;
    var st, s1 := Plainly(Uninitialized, 0), Plainly(Initialized, 0);
    ReadBodyBlock();
    assert EnterBranch(st.keep, st.flow, st) == st;
    var p := AddPath(Paths([], []), s1);
    assert p.keeps == [s1.keep] && p.flows == [s1.flow];
    assert JoinFlow(0, st.flow[0], p.flows) == s1.flow[0];
    assert MergeKeepPaths(st.keep, p.keeps) == map[] && MergeFlowPaths(st.flow, p.flows) == s1.flow;
  }

  lemma FinallyReadsChecked()
    ensures CheckAll(FINALLY_READS, PushScopes(START)) == Plainly(Initialized, 0)
  {
    hide CheckGuarded, CheckBlock, CheckOp, PushScopes;
    DeclareBegins();
    ReadGuarded();
    ReadFinallyBlock();
    var s := Try(READ_BODY, NoArms, ElseBody(One(Do(Read, 0))));
    TryChecked(s);
    assert CheckAll(One(s), Plainly(Uninitialized, 0)) == Plainly(Initialized, 0);
  }

  lemma TryChecked(s: Stmt)
    requires s == Try(READ_BODY, NoArms, ElseBody(One(Do(Read, 0))))
    requires CheckGuarded(s, Plainly(Uninitialized, 0)) == Plainly(Initialized, 0)
    requires CheckBlock(One(Do(Read, 0)), Plainly(Initialized, 1)) == Plainly(Initialized, 1)
    ensures Check(s, Plainly(Uninitialized, 0)) == Plainly(Initialized, 0)
  {
    hide CheckGuarded, CheckBlock;
  }

  lemma FinallyReadsAccepted()
    ensures Accepted(FINALLY_READS, false)
  {
    hide CheckAll, Accepted;
    FinallyReadsChecked();
    assert Plainly(Initialized, 0) == Local0(NO_FLOW);
    LocalEnds(FINALLY_READS, NO_FLOW);
  }

  /** The end of the function: the local owes nothing. */
  lemma LocalEnds(body: Stmts, f: Flow)
    requires CheckAll(body, PushScopes(START)) == Local0(f) && f.task in {NotTask, Awaited}
    ensures Accepted(body, false)
  {
    hide CheckAll, KeepScopeReports, TaskScopeReports;
    var s := Local0(f);
    assert From(s.keepScopes, 1) == [[]] && From(s.flowScopes, 1) == [[0]];
    OneScope(map[0 := Deleted], s.flow);
    NoKeeps(s.keep);
    var p := PopScopes(s);
    assert p.keepScopes == [[]] && p.flowScopes == [[]] && p.diagnostics == [];
    EmptyScope(p);
  }

  lemma NoKeeps(keep: KeepMap)
    ensures KeepScopeReports([[]], keep) == []
  {
    var scopes: seq<seq<Id>> := [[]];
    assert ButLast(scopes) == [] && KeepScopeReports(ButLast(scopes), keep) == [];
  }

  lemma FinallyReadsUncovered()
    ensures ResolvedAll(FINALLY_READS, 0, Outside) && !CoveredIn(FINALLY_READS, 0)
  {
    hide CoveredAll, MentionsAll, Covered, ResolvedAll, Resolved;
    FinallyReadsResolved();
    ReadMentioned();
    ReadInFinally(READ_BODY, One(Do(Read, 0)), Terms(false, false, true));
  }

  lemma ReadMentioned()
    ensures MentionsAll(One(Do(Read, 0)), 0, Reading)
  {
  }

  lemma FinallyReadsResolved()
    ensures ResolvedAll(FINALLY_READS, 0, Outside)
  {
    assert ResolvedAll(READ_BODY, 0, Inside(Plain)) && ResolvedAll(One(Do(Read, 0)), 0, Inside(Plain));
  }

  /** A plain local read in a finally block. */
  lemma ReadInFinally(body: Stmts, fin: Stmts, terms: Terms)
    requires MentionsAll(fin, 0, Reading)
    ensures !CoveredAll(Two(Do(Declare, 0), Try(body, NoArms, ElseBody(fin))), 0, Outside, terms)
  {
    hide MentionsAll, Covered, CoveredAll;
    ReadExcluded(body, fin, terms);
    HeadExcluded(Try(body, NoArms, ElseBody(fin)), End, Inside(Plain), terms);
    HeadExcluded(Do(Declare, 0), One(Try(body, NoArms, ElseBody(fin))), Outside, terms);
  }

  lemma ReadExcluded(body: Stmts, fin: Stmts, terms: Terms)
    requires MentionsAll(fin, 0, Reading)
    ensures !Covered(Try(body, NoArms, ElseBody(fin)), 0, Inside(Plain), terms)
  {
    hide MentionsAll, CoveredAll;
  }

  lemma FinallyReadsRuns()
    ensures Fault(UnwrittenRead, 0) in RunFunction(FINALLY_READS, [Pick(1), Pick(0)]).store.faults
  {
    var cs := [Pick(1), Pick(0)];
    var m1, m2 := Holding(Local(false), {}, 0, {}), Holding(Local(false), {}, 0, {Fault(UnwrittenRead, 0)});
    var s := Try(READ_BODY, NoArms, ElseBody(One(Do(Read, 0))));
    assert Exec(Declare, 0, EMPTY) == m1 && Exec(Read, 0, m1) == m2;
    LeaveNone(m1);
    LeaveNone(m2);
    assert Decls(READ_BODY) == {} && Decls(One(Do(Read, 0))) == {};
    assert cs[1..] == [Pick(0)] && cs[1..][1..] == [];
    assert RunAll(READ_BODY, cs, m1) == Run(Threw, [Pick(0)], m1);
    OpThen(Do(Read, 0), End, [], m1);
    FinallyReadsSteps(s, cs, m1, m2);
  }

  lemma FinallyReadsSteps(s: Stmt, cs: seq<Choice>, m1: Store, m2: Store)
    requires s == Try(READ_BODY, NoArms, ElseBody(One(Do(Read, 0)))) && Fault(UnwrittenRead, 0) in m2.faults
    requires Exec(Declare, 0, EMPTY) == m1
    requires RunBlock(READ_BODY, cs, m1) == Run(Threw, [Pick(0)], m1)
    requires RunBlock(One(Do(Read, 0)), [], m1) == Run(Normal, [], m2)
    ensures Fault(UnwrittenRead, 0) in RunFunction(FINALLY_READS, cs).store.faults
  {
    hide RunBlock, Exec;
    assert [Pick(0)][1..] == [];
    assert RunTry(s, cs, m1).store == m2;
    TryRuns(s, cs, m1, m2);
  }

  lemma TryRuns(s: Stmt, cs: seq<Choice>, m1: Store, m2: Store)
    requires s.Try? && FINALLY_READS == Two(Do(Declare, 0), s) && Fault(UnwrittenRead, 0) in m2.faults
    requires Exec(Declare, 0, EMPTY) == m1 && RunTry(s, cs, m1).store == m2
    ensures Fault(UnwrittenRead, 0) in RunFunction(FINALLY_READS, cs).store.faults
  {
    hide RunTry, Exec;
    OpThen(Do(Declare, 0), One(s), cs, EMPTY);
    assert RunAll(One(s), cs, m1).store == m2;
  }

  lemma FinallyReadsUnassigned()
    ensures Misbehaves(FINALLY_READS, 0, UnwrittenRead)
  {
    hide *;
    FinallyReadsAccepted();
    FinallyReadsRuns();
    FinallyReadsUncovered();
    Shows(FINALLY_READS, 0, UnwrittenRead, [Pick(1), Pick(0)]);
  }
}
