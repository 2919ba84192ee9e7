/** Why FlowPrecision leaves out what it leaves out: for each of its conditions that is not
    itself reported, a body that breaks only that condition, about which the checker
    complains, and no run of which does the local any harm. */
module FlowAlarms {
  import opened FlowSyntax
  import opened FlowState
  import opened FlowChecker
  import opened FlowFrame
  import opened FlowPrecision
  import opened FlowStructure
  import opened FlowLimits
  import opened Runs

  /** A report that no run bears out. */
  ghost predicate FalseAlarm(body: Stmts, x: Id, code: Code) {
    && ResolvedAll(body, x, Outside) && !RunnableAll(body, x, false)
    && Diagnostic(code, x) in CheckFunction(body, false).diagnostics
    && forall cs, kind :: Fault(kind, x) !in RunFunction(body, cs).store.faults
  }

  /** A report of the walk is a report of the function. */
  lemma Reported(body: Stmts, d: Diagnostic)
    requires d in CheckAll(body, PushScopes(START)).diagnostics
    ensures d in CheckFunction(body, false).diagnostics
  {
    hide CheckAll, PopScopes;
    var s := CheckAll(body, PushScopes(START));
    AllGrows(body, PushScopes(START));
    PopQuiet(s);
    PopFrame(s);
    PopQuiet(PopScopes(s));
  }

  /** Leaving the scope of owner 0 reports it unless it is deleted. */
  lemma ReportedAtEnd(body: Stmts, k: Keep, v: Validity)
    requires CheckAll(body, PushScopes(START)) == Owner(k, v) && k != Deleted
    ensures Diagnostic(RawDeleteRequired, 0) in CheckFunction(body, false).diagnostics
  {
    hide CheckAll, PopScopes, TaskScopeReports;
    var s := Owner(k, v);
    PopLists(s);
    assert From(s.keepScopes, 1) == [[0]] && From(s.flowScopes, 1) == [[0]];
    OwnerScope(s.keep);
    assert Diagnostic(RawDeleteRequired, 0) in PopScopes(s).diagnostics;
    PopFrame(s);
    PopQuiet(PopScopes(s));
  }

  lemma OwnerScope(keep: KeepMap)
    requires 0 in keep && keep[0] != Deleted
    ensures KeepScopeReports([[0]], keep) == [Diagnostic(RawDeleteRequired, 0)]
  {
    assert ButLast([0]) == [] && KeepReports([0], keep) == [Diagnostic(RawDeleteRequired, 0)];
    assert ButLast([[0]]) == [];
  }

  lemma Alarm(body: Stmts, x: Id, code: Code)
    requires ResolvedAll(body, x, Outside) && !RunnableAll(body, x, false)
    requires Diagnostic(code, x) in CheckFunction(body, false).diagnostics
    requires forall cs, kind :: Fault(kind, x) !in RunFunction(body, cs).store.faults
    ensures FalseAlarm(body, x, code)
  {
  }

  // ---- null ----

  /** Deleting null does nothing, but the owner is taken to be deleted already. */
  const DELETE_NULL: Stmts := Then(Do(NewRaw, 0), Three(Do(Delete, 0), Do(SetNull, 0), Do(Delete, 0)))

  lemma DeleteNullReported()
    ensures Diagnostic(RawDoubleDelete, 0) in CheckFunction(DELETE_NULL, false).diagnostics
  {
    var st := START.(keepScopes := [[], [0]], flowScopes := [[], [0]]);
    Begins();
    OpOn(Delete, st, Live, LivePointer, Deleted, DeletedPointer);
    OpOn(SetNull, st, Deleted, DeletedPointer, Deleted, Null);
    var d := Diagnostic(RawDoubleDelete, 0);
    assert d in Check(Do(Delete, 0), Owner(Deleted, Null)).diagnostics by {
      assert DeleteReports(0, Owner(Deleted, Null))[0] == d;
    }
    hide Check;
    OpsThen(Delete, Two(Do(SetNull, 0), Do(Delete, 0)), st, Live, LivePointer, Deleted, DeletedPointer);
    OpsThen(SetNull, One(Do(Delete, 0)), st, Deleted, DeletedPointer, Deleted, Null);
    assert d in CheckAll(One(Do(Delete, 0)), Owner(Deleted, Null)).diagnostics;
    assert CheckAll(DELETE_NULL, PushScopes(START)) == CheckAll(One(Do(Delete, 0)), Owner(Deleted, Null));
    Reported(DELETE_NULL, d);
  }

  lemma DeleteNullRuns(cs: seq<Choice>)
    ensures RunFunction(DELETE_NULL, cs).store.faults == {}
  {
    var m0, m1, m2 := Holding(Ptr(0), {0}, 1, {}), Holding(Ptr(0), {}, 1, {}), Holding(Nil, {}, 1, {});
    assert Exec(NewRaw, 0, EMPTY) == m0 && Exec(Delete, 0, m0) == m1 && Exec(SetNull, 0, m1) == m2;
    assert Exec(Delete, 0, m2) == m2;
    hide Exec;
    OpThen(Do(NewRaw, 0), Three(Do(Delete, 0), Do(SetNull, 0), Do(Delete, 0)), cs, EMPTY);
    OpThen(Do(Delete, 0), Two(Do(SetNull, 0), Do(Delete, 0)), cs, m0);
    OpThen(Do(SetNull, 0), One(Do(Delete, 0)), cs, m1);
    OpThen(Do(Delete, 0), End, cs, m2);
    assert RunAll(DELETE_NULL, cs, EMPTY) == Run(Normal, cs, m2);
    assert (set x | x in Decls(DELETE_NULL) && Holds(m2, x) :: Fault(Dropped, x)) == {};
  }

  lemma DeleteNullText()
    ensures ResolvedAll(DELETE_NULL, 0, Outside) && !RunnableAll(DELETE_NULL, 0, false)
  {
  }

  lemma DeletingNullIsReported()
    ensures FalseAlarm(DELETE_NULL, 0, RawDoubleDelete)
  {
    hide *;
    DeleteNullText();
    DeleteNullReported();
    forall cs, kind ensures Fault(kind, 0) !in RunFunction(DELETE_NULL, cs).store.faults { DeleteNullRuns(cs); }
    Alarm(DELETE_NULL, 0, RawDoubleDelete);
  }

  // ---- a default nothing is left for ----

  const DELETES := One(Do(Delete, 0))

  const BOTH := Arm(BoolCase(true), DELETES, Arm(BoolCase(false), DELETES, NoArms))

  /** `switch (b) { case true: delete p; case false: delete p; default: }` */
  const IDLE_DEFAULT: Stmts := Two(Do(NewRaw, 0), Switch(OnBool, false, BOTH, ElseBody(End)))

  lemma DeletesBlock(st: State)
    requires st.keepScopes == [[], [0]] && st.flowScopes == [[], [0]] && !st.terminated
    ensures CheckBlock(DELETES, With(st, Live, LivePointer)) == With(st, Deleted, DeletedPointer)
  {
    hide Check;
    var s := PushScopes(With(st, Live, LivePointer));
    assert With(s, Live, LivePointer) == s;
    OpOn(Delete, s, Live, LivePointer, Deleted, DeletedPointer);
    OpsThen(Delete, End, s, Live, LivePointer, Deleted, DeletedPointer);
    var r := With(s, Deleted, DeletedPointer);
    EmptyScope(r);
    assert ButLast(r.keepScopes) == [[], [0]] && ButLast(r.flowScopes) == [[], [0]];
  }

  lemma IdleSwitch()
    ensures Check(Switch(OnBool, false, BOTH, ElseBody(End)), Owner(Live, LivePointer)) ==
            Owner(MaybeDeleted, MaybeInvalid)
  {
    hide CheckBlock, MergeKeepPaths, MergeFlowPaths;
    var st, gone := Owner(Live, LivePointer), Owner(Deleted, DeletedPointer);
    var keep, flow := st.keep, st.flow;
    DeletesBlock(st);
    ClauseWalked(st);
    assert EnterBranch(keep, flow, gone) == st;
    var p := AddPath(AddPath(AddPath(Paths([], []), gone), gone), st);
    var (s1, p1) := CheckArms(SwitchOn(OnBool), BOTH, {}, keep, flow, st, Paths([], []));
    assert (s1, p1) == (gone, AddPath(AddPath(Paths([], []), gone), gone)) by { IdleArms(st, gone); }
    assert CheckElse(ElseBody(End), keep, flow, false, s1, p1) == (st, p);
    assert p.keeps == [gone.keep, gone.keep, keep] && p.flows == [gone.flow, gone.flow, flow];
    MergeThree();
  }

  lemma IdleArms(st: State, gone: State)
    requires st == Owner(Live, LivePointer) && gone == Owner(Deleted, DeletedPointer)
    requires CheckBlock(DELETES, st) == gone
    ensures CheckArms(SwitchOn(OnBool), BOTH, {}, st.keep, st.flow, st, Paths([], [])) ==
            (gone, AddPath(AddPath(Paths([], []), gone), gone))
  {
    hide CheckBlock;
    var rest := Arm(BoolCase(false), DELETES, NoArms);
    var p := AddPath(Paths([], []), gone);
    assert EnterArm(SwitchOn(OnBool), BoolCase(false), {BoolCase(true)}, st) == st;
    assert EnterBranch(st.keep, st.flow, gone) == st && EnterBranch(st.keep, st.flow, st) == st;
    assert CheckArms(SwitchOn(OnBool), rest, {BoolCase(true)}, st.keep, st.flow, gone, p) == (gone, AddPath(p, gone));
    assert {} + {BoolCase(true)} == {BoolCase(true)};
    assert EnterArm(SwitchOn(OnBool), BoolCase(true), {}, st) == st;
  }

  lemma MergeThree()
    ensures var a, b := map[0 := Deleted], map[0 := Live];
            MergeKeepPaths(b, [a, a, b]) == map[0 := MaybeDeleted]
    ensures var f, g := OwnerFlow(DeletedPointer), OwnerFlow(LivePointer);
            MergeFlowPaths(g, [f, f, g]) == OwnerFlow(MaybeInvalid)
  {
    var a, b := map[0 := Deleted], map[0 := Live];
    assert ButLast([a, a, b]) == [a, a] && ButLast([a, a]) == [a];
    assert JoinKeep(0, Live, [a]) == Deleted && JoinKeep(0, Live, [a, a]) == Deleted;
    var f, g := OwnerFlow(DeletedPointer), OwnerFlow(LivePointer);
    assert ButLast([f, f, g]) == [f, f] && ButLast([f, f]) == [f];
    assert JoinFlow(0, g[0], [f]) == f[0] && JoinFlow(0, g[0], [f, f]) == f[0];
    assert JoinFlow(0, g[0], [f, f, g]) == Flow(Initialized, MaybeInvalid, NotTask);
  }

  lemma IdleDefaultReported()
    ensures Diagnostic(RawDeleteRequired, 0) in CheckFunction(IDLE_DEFAULT, false).diagnostics
  {
    hide Check, CheckFunction;
    Begins();
    IdleSwitch();
    assert CheckAll(IDLE_DEFAULT.tail, Owner(Live, LivePointer)) == Owner(MaybeDeleted, MaybeInvalid);
    ReportedAtEnd(IDLE_DEFAULT, MaybeDeleted, MaybeInvalid);
  }

  lemma IdleDefaultRuns(cs: seq<Choice>)
    ensures RunFunction(IDLE_DEFAULT, cs).store.faults == {}
  {
    var m0, m1 := Holding(Ptr(0), {0}, 1, {}), Holding(Ptr(0), {}, 1, {});
    var s := Switch(OnBool, false, BOTH, ElseBody(End));
    assert Exec(NewRaw, 0, EMPTY) == m0 && Exec(Delete, 0, m0) == m1;
    hide Exec;
    OpThen(Do(NewRaw, 0), One(s), cs, EMPTY);
    OpBlockRuns(Delete, cs, m0, m1);
    var q := RunStmt(s, cs, m0);
    assert (q.outcome == Cut && q.store == m0) || (q.outcome == Normal && q.store == m1) by {
      if |cs| > 0 && cs[0].Value? && LabelFits(OnBool, cs[0].v) {
        EveryBool(cs, m0);
        OpBlockRuns(Delete, cs[1..], m0, m1);
      }
    }
    assert (set x | x in Decls(IDLE_DEFAULT) && Holds(m1, x) :: Fault(Dropped, x)) == {};
  }

  lemma EveryBool(cs: seq<Choice>, m: Store)
    requires |cs| > 0 && cs[0].Value? && LabelFits(OnBool, cs[0].v)
    ensures cs[0].v in Labels(BOTH) && RunCase(BOTH, cs[0].v, cs[1..], m) == RunBlock(DELETES, cs[1..], m)
  {
    hide RunBlock;
  }

  lemma IdleDefaultText()
    ensures ResolvedAll(IDLE_DEFAULT, 0, Outside) && !RunnableAll(IDLE_DEFAULT, 0, false)
  {
    assert BoolCase(true) in Labels(BOTH) && BoolCase(false) in Labels(BOTH);
  }

  lemma IdleDefaultIsReported()
    ensures FalseAlarm(IDLE_DEFAULT, 0, RawDeleteRequired)
  {
    hide *;
    IdleDefaultText();
    IdleDefaultReported();
    forall cs, kind ensures Fault(kind, 0) !in RunFunction(IDLE_DEFAULT, cs).store.faults { IdleDefaultRuns(cs); }
    Alarm(IDLE_DEFAULT, 0, RawDeleteRequired);
  }

  // ---- a do-while that never comes to its end ----

  const DELETE_RETURN: Stmts := Two(Do(Delete, 0), Return)

  /** `do { delete p; return; } while (c);` goes on from the tables before it. */
  const RETURNS_INSIDE: Stmts := Two(Do(NewRaw, 0), DoWhile(DELETE_RETURN))

  lemma ReturnTurn()
    ensures CheckBlock(DELETE_RETURN, EnterLoop(Owner(Live, LivePointer))) ==
            With(EnterLoop(Owner(Live, LivePointer)), Deleted, DeletedPointer).(terminated := true)
  {
    hide Check;
    var s0 := InLoop(Live, LivePointer);
    var s1 := With(s0, Deleted, DeletedPointer);
    InLoopIs(Live, LivePointer);
    OpOn(Delete, s0, Live, LivePointer, Deleted, DeletedPointer);
    OpsThen(Delete, One(Return), s0, Live, LivePointer, Deleted, DeletedPointer);
    assert With(s0, Live, LivePointer) == s0;
    ReturnChecked(s1);
    var s2 := s1.(terminated := true);
    assert CheckAll(One(Return), s1) == s2;
    EmptyScope(s2);
    assert ButLast(s2.keepScopes) == [[], [0]] && ButLast(s2.flowScopes) == [[], [0]];
  }

  lemma ReturnChecked(st: State)
    requires st == With(InLoop(Live, LivePointer), Deleted, DeletedPointer)
    ensures Check(Return, st) == st.(terminated := true)
  {
    hide KeepScopeReports, TaskScopeReports;
    InLoopIs(Live, LivePointer);
    assert From(st.keepScopes, 0) == [[], [0], []] && From(st.flowScopes, 0) == [[], [0], []];
    ThreeScopes(From(st.keepScopes, 0), st.keep, st.flow);
    ThreeScopes(From(st.flowScopes, 0), st.keep, st.flow);
  }

  lemma ReturnLoop()
    ensures Check(DoWhile(DELETE_RETURN), Owner(Live, LivePointer)) == Owner(Live, LivePointer)
  {
    hide CheckBlock, MergeKeepPaths, MergeFlowPaths;
    ReturnTurn();
    var s := With(EnterLoop(Owner(Live, LivePointer)), Deleted, DeletedPointer).(terminated := true);
    assert [] + Last(s.breakKeeps) == [] && [] + Last(s.breakFlows) == [];
    MergeOne(Live, LivePointer, Live, LivePointer);
  }

  lemma ReturnsInsideReported()
    ensures Diagnostic(RawDeleteRequired, 0) in CheckFunction(RETURNS_INSIDE, false).diagnostics
  {
    hide Check, CheckFunction;
    Begins();
    ReturnLoop();
    assert CheckAll(RETURNS_INSIDE.tail, Owner(Live, LivePointer)) == Owner(Live, LivePointer);
    ReportedAtEnd(RETURNS_INSIDE, Live, LivePointer);
  }

  lemma ReturnsInsideRuns(cs: seq<Choice>)
    ensures RunFunction(RETURNS_INSIDE, cs).store.faults == {}
  {
    var m0, m1 := Holding(Ptr(0), {0}, 1, {}), Holding(Ptr(0), {}, 1, {});
    assert Exec(NewRaw, 0, EMPTY) == m0 && Exec(Delete, 0, m0) == m1;
    hide Exec;
    OpThen(Do(NewRaw, 0), One(DoWhile(DELETE_RETURN)), cs, EMPTY);
    OpThen(Do(Delete, 0), One(Return), cs, m0);
    assert RunAll(One(Return), cs, m1) == Run(Returned, cs, m1);
    assert Decls(DELETE_RETURN) == {};
    LeaveNone(m1);
    assert RunBlock(DELETE_RETURN, cs, m0) == Run(Returned, cs, m1);
    assert RunStmt(DoWhile(DELETE_RETURN), cs, m0) == Run(Returned, cs, m1);
    assert (set x | x in Decls(RETURNS_INSIDE) && Holds(m1, x) :: Fault(Dropped, x)) == {};
  }

  lemma ReturnStops(s: Stmt)
    ensures StopsAll(Two(s, Return), true)
  {
    hide EveryValue, StopsArms;
    assert Stops(Return, true);
    assert StopsAll(One(Return), true);
  }

  lemma ReturnsInsideText()
    ensures ResolvedAll(RETURNS_INSIDE, 0, Outside) && !RunnableAll(RETURNS_INSIDE, 0, false)
  {
    hide StopsAll, Stops, EveryValue;
    ReturnStops(Do(Delete, 0));
    assert ResolvedAll(DELETE_RETURN, 0, Inside(RawOwner));
    assert !Runnable(DoWhile(DELETE_RETURN), 0, false);
  }

  lemma CodeAfterReturnIsReported()
    ensures FalseAlarm(RETURNS_INSIDE, 0, RawDeleteRequired)
  {
    hide *;
    ReturnsInsideText();
    ReturnsInsideReported();
    forall cs, kind ensures Fault(kind, 0) !in RunFunction(RETURNS_INSIDE, cs).store.faults { ReturnsInsideRuns(cs); }
    Alarm(RETURNS_INSIDE, 0, RawDeleteRequired);
  }

  // ---- a catch clause nothing is thrown to ----

  const READ_CAUGHT := Arm(Caught(1), One(Do(Read, 0)), NoArms)

  /** `try { x = 1; } catch (e) { use(x); }` */
  const CATCH_READS: Stmts := Two(Do(Declare, 0), READING)

  const READING := Try(One(Do(Assign, 0)), READ_CAUGHT, NoElse)

  lemma CaughtReadReported(st: State, p: Paths)
    requires Ready(st)
    ensures Diagnostic(UninitializedRead, 0) in
            CheckArms(Catches, READ_CAUGHT, {}, map[], map[0 := FRESH_LOCAL], st, p).0.diagnostics
  {
    hide PopScopes, RegisterFlow, Check;
    var d := Diagnostic(UninitializedRead, 0);
    var s0 := EnterBranch(map[], map[0 := FRESH_LOCAL], st);
    var s1 := EnterArm(Catches, Caught(1), {}, s0);
    ClauseFlow(s0, s1);
    var s2 := PushScopes(s1);
    UnassignedRead(s2);
    AllGrows(One(Do(Read, 0)), s2);
    var s3 := CheckAll(One(Do(Read, 0)), s2);
    PopQuiet(s3);
    PopFrame(s3);
    PopQuiet(PopScopes(s3));
    assert CheckBlock(One(Do(Read, 0)), s1) == PopScopes(s3);
    var q := AddPath(p, PopScopes(s3));
    assert CheckArms(Catches, READ_CAUGHT, {}, map[], map[0 := FRESH_LOCAL], st, p) == (PopScopes(PopScopes(s3)), q);
  }

  lemma ClauseFlow(s0: State, s1: State)
    requires s1 == EnterArm(Catches, Caught(1), {}, s0) && 0 in s0.flow && Ready(s0)
    ensures 0 in s1.flow && s1.flow[0] == s0.flow[0] && Ready(s1)
  {
  }

  lemma UnassignedRead(st: State)
    requires 0 in st.flow && st.flow[0] == FRESH_LOCAL
    ensures Diagnostic(UninitializedRead, 0) in CheckAll(One(Do(Read, 0)), st).diagnostics
  {
    assert Check(Do(Read, 0), st).diagnostics == st.diagnostics + [Diagnostic(UninitializedRead, 0)];
  }

  lemma ReadingReported(st: State)
    requires st == Local0(FRESH_LOCAL)
    ensures Diagnostic(UninitializedRead, 0) in Check(READING, st).diagnostics
  {
    hide CheckBlock, CheckArms;
    var s1 := CheckBlock(One(Do(Assign, 0)), st);
    BlockGrows(One(Do(Assign, 0)), st);
    assert EnterBranch(st.keep, st.flow, st) == st;
    CaughtReadReported(s1, AddPath(Paths([], []), s1));
    assert Check(READING, st) == CheckGuarded(READING, st);
  }

  lemma CatchReadsReported()
    ensures Diagnostic(UninitializedRead, 0) in CheckFunction(CATCH_READS, false).diagnostics
  {
    hide Check, CheckFunction;
    var st := Local0(FRESH_LOCAL);
    DeclareBegins();
    assert Check(Do(Declare, 0), PushScopes(START)) == st;
    ReadingReported(st);
    var r := Check(READING, st);
    assert CheckAll(One(READING), st) == r;
    assert CheckAll(CATCH_READS, PushScopes(START)) == r;
    Reported(CATCH_READS, Diagnostic(UninitializedRead, 0));
  }

  lemma CatchReadsRuns(cs: seq<Choice>)
    ensures RunFunction(CATCH_READS, cs).store.faults == {}
  {
    var m0, m1 := Holding(Local(false), {}, 0, {}), Holding(Local(true), {}, 0, {});
    assert Exec(Declare, 0, EMPTY) == m0 && Exec(Assign, 0, m0) == m1;
    hide Exec, RunArm;
    OpThen(Do(Declare, 0), One(READING), cs, EMPTY);
    OpThen(Do(Assign, 0), End, cs, m0);
    assert Decls(One(Do(Assign, 0))) == {};
    LeaveNone(m1);
    assert RunBlock(One(Do(Assign, 0)), cs, m0) == Run(Normal, cs, m1);
    assert RunGuarded(READING, cs, m0) == Run(Normal, cs, m1);
    assert RunElse(NoElse, cs, m1) == Run(Normal, cs, m1);
    assert RunTry(READING, cs, m0) == Run(Normal, cs, m1);
    assert RunStmt(READING, cs, m0) == Run(Normal, cs, m1);
    assert RunAll(CATCH_READS, cs, EMPTY) == Run(Normal, cs, m1);
    assert (set x | x in Decls(CATCH_READS) && Holds(m1, x) :: Fault(Dropped, x)) == {};
  }

  lemma CatchReadsText()
    ensures ResolvedAll(CATCH_READS, 0, Outside) && !RunnableAll(CATCH_READS, 0, false)
  {
    assert ResolvedArms(READ_CAUGHT, 0, Inside(Plain));
  }

  lemma CatchReadIsReported()
    ensures FalseAlarm(CATCH_READS, 0, UninitializedRead)
  {
    hide *;
    CatchReadsText();
    CatchReadsReported();
    forall cs, kind ensures Fault(kind, 0) !in RunFunction(CATCH_READS, cs).store.faults { CatchReadsRuns(cs); }
    Alarm(CATCH_READS, 0, UninitializedRead);
  }
}
