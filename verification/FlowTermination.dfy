/** Where the checker says control does not continue, no run continues.  Nothing has to be
    accepted for this; the oracle decides which way a run goes, and none goes on. */
module FlowTermination {
  import opened FlowSyntax
  import opened FlowState
  import opened FlowChecker
  import opened FlowFrame
  import opened Runs

  /** `flowTerminated` after a statement: no run completes it normally, through nested
      branches, exhaustive switches, loops, try, catch and finally. */
  lemma {:induction false} TerminatedStmt(s: Stmt, cs: seq<Choice>, m: Store, st: State)
    requires !st.terminated && Check(s, st).terminated
    ensures RunStmt(s, cs, m).outcome != Normal
    decreases |cs|, s, 2
  {
    hide CheckArms, CheckElse, CheckBlock, CheckFinally, RunBlock, RunArm, RunElse, CheckOp, CheckLoopExit;
    match s
    case Do(op, x) => OpContinues(op, x, st);
    case Block(body) => TerminatedBlock(body, cs, m, st);
    case If(_, _) => TerminatedIf(s, cs, m, st);
    case Switch(_, _, _, _) => TerminatedSwitch(s, cs, m, st);
    case Try(_, _, _) => TerminatedTry(s, cs, m, st);
    case _ =>
  }

  lemma OpContinues(op: Op, x: Id, st: State)
    requires !st.terminated
    ensures !CheckOp(op, x, st).terminated
  {
  }

  lemma {:induction false} TerminatedAll(ss: Stmts, cs: seq<Choice>, m: Store, st: State)
    requires !st.terminated && CheckAll(ss, st).terminated
    ensures RunAll(ss, cs, m).outcome != Normal
    decreases |cs|, ss, 1
  {
    hide Check, RunStmt;
    if ss.Then? {
      var s1, r := Check(ss.head, st), RunStmt(ss.head, cs, m);
      if s1.terminated { TerminatedStmt(ss.head, cs, m, st); }
      else if r.outcome == Normal { TerminatedAll(ss.tail, r.rest, r.store, s1); }
    }
  }

  lemma {:induction false} TerminatedBlock(body: Stmts, cs: seq<Choice>, m: Store, st: State)
    requires !st.terminated && CheckBlock(body, st).terminated
    ensures RunBlock(body, cs, m).outcome != Normal
    decreases |cs|, body, 2
  {
    TerminatedAll(body, cs, m, PushScopes(st));
  }

  /** If no branch adds a path, no run through a branch comes out of it. */
  lemma {:induction false} TerminatedArm(kind: ArmKind, arms: Arms, seen: set<Label>, keep: KeepMap, flow: FlowMap,
                                         st: State, p: Paths, n: nat, cs: seq<Choice>, m: Store)
    requires n < Count(arms) && |CheckArms(kind, arms, seen, keep, flow, st, p).1.keeps| == |p.keeps|
    ensures RunArm(arms, n, kind.Catches?, cs, m).outcome != Normal
    decreases |cs|, arms, 0
  {
    hide CheckBlock, EnterArm, LeaveArm, RunBlock;
    var tag, body, rest := arms.tag, arms.body, arms.rest;
    var s1 := EnterArm(kind, tag, seen, EnterBranch(keep, flow, st));
    var s2 := CheckBlock(body, s1);
    PathsGrow(kind, rest, seen + {tag}, keep, flow, LeaveArm(kind, s2), AddPath(p, s2));
    if n == 0 {
      EnterArmContinues(kind, tag, seen, EnterBranch(keep, flow, st));
      TerminatedBlock(body, cs, Bind(kind.Catches?, tag, m), s1);
    } else {
      TerminatedArm(kind, rest, seen + {tag}, keep, flow, LeaveArm(kind, s2), AddPath(p, s2), n - 1, cs, m);
    }
  }

  lemma EnterArmContinues(kind: ArmKind, tag: Label, seen: set<Label>, st: State)
    requires !st.terminated
    ensures !EnterArm(kind, tag, seen, st).terminated
  {
  }

  lemma {:induction false} PathsGrow(kind: ArmKind, arms: Arms, seen: set<Label>, keep: KeepMap, flow: FlowMap,
                                     st: State, p: Paths)
    ensures |p.keeps| <= |CheckArms(kind, arms, seen, keep, flow, st, p).1.keeps|
    decreases arms
  {
    hide CheckBlock, EnterArm, LeaveArm;
    if arms.Arm? {
      var s2 := CheckBlock(arms.body, EnterArm(kind, arms.tag, seen, EnterBranch(keep, flow, st)));
      PathsGrow(kind, arms.rest, seen + {arms.tag}, keep, flow, LeaveArm(kind, s2), AddPath(p, s2));
    }
  }

  lemma {:induction false} TerminatedElse(els: Else, keep: KeepMap, flow: FlowMap, open: bool, st: State, p: Paths,
                                          cs: seq<Choice>, m: Store)
    requires open || els.ElseBody?
    requires |CheckElse(els, keep, flow, open, st, p).1.keeps| == |p.keeps|
    ensures RunElse(els, cs, m).outcome != Normal
    decreases |cs|, els, 0
  {
    if els.ElseBody? { TerminatedBlock(els.body, cs, m, EnterBranch(keep, flow, st)); }
  }

  lemma {:induction false} TerminatedIf(s: Stmt, cs: seq<Choice>, m: Store, st: State)
    requires s.If? && CheckIf(s, st).terminated
    ensures RunStmt(s, cs, m).outcome != Normal
    decreases |cs|, s, 1
  {
    hide CheckArms, CheckElse, RunArm, RunElse;
    var (s1, p1) := CheckArms(IfChain, s.arms, {}, st.keep, st.flow, st, Paths([], []));
    PathsGrow(IfChain, s.arms, {}, st.keep, st.flow, st, Paths([], []));
    ElsePaths(s.els, st.keep, st.flow, true, s1, p1);
    if |cs| > 0 && cs[0].Pick? {
      if cs[0].n < Count(s.arms) {
        TerminatedArm(IfChain, s.arms, {}, st.keep, st.flow, st, Paths([], []), cs[0].n, cs[1..], m);
      } else {
        TerminatedElse(s.els, st.keep, st.flow, true, s1, p1, cs[1..], m);
      }
    }
  }

  lemma ElsePaths(els: Else, keep: KeepMap, flow: FlowMap, open: bool, st: State, p: Paths)
    ensures |p.keeps| <= |CheckElse(els, keep, flow, open, st, p).1.keeps|
  {
  }

  /** Labels that cover the selector leave no value without a case. */
  lemma CoversEvery(on: Selector, labels: set<Label>, v: Label)
    requires Covers(on, labels) && LabelFits(on, v)
    ensures v in labels
  {
  }

  lemma {:induction false} TerminatedSwitch(s: Stmt, cs: seq<Choice>, m: Store, st: State)
    requires s.Switch? && CheckSwitch(s, st).terminated
    ensures RunStmt(s, cs, m).outcome != Normal
    decreases |cs|, s, 1
  {
    hide CheckArms, CheckElse, RunArm, RunElse, RunCase, Covers, LabelFits;
    var (s1, p1) := CheckArms(SwitchOn(s.on), s.arms, {}, st.keep, st.flow, st, Paths([], []));
    PathsGrow(SwitchOn(s.on), s.arms, {}, st.keep, st.flow, st, Paths([], []));
    ElsePaths(s.els, st.keep, st.flow, false, s1, p1);
    if |cs| > 0 && cs[0].Value? && LabelFits(s.on, cs[0].v) {
      var v := cs[0].v;
      if v in Labels(s.arms) {
        CaseIsArm(s.arms, v, cs[1..], m);
        TerminatedArm(SwitchOn(s.on), s.arms, {}, st.keep, st.flow, st, Paths([], []), CaseIndex(s.arms, v), cs[1..],
                      m);
      } else {
        if s.els.NoElse? { CoversEvery(s.on, Labels(s.arms), v); }
        TerminatedElse(s.els, st.keep, st.flow, false, s1, p1, cs[1..], m);
      }
    }
  }

  lemma {:induction false} TerminatedTry(s: Stmt, cs: seq<Choice>, m: Store, st: State)
    requires s.Try? && CheckTry(s, st).terminated
    ensures RunTry(s, cs, m).outcome != Normal
    decreases |cs|, s, 1
  {
    hide CheckArms, CheckGuarded, CheckBlock, RunGuarded, RunBlock;
    var g, q := CheckGuarded(s, st), RunGuarded(s, cs, m);
    if g.terminated { TerminatedGuarded(s, cs, m, st); }
    else if s.fin.ElseBody? {
      TerminatedBlock(s.fin.body, q.rest, q.store, g.(terminated := false, finallyDepth := g.finallyDepth + 1));
    }
  }

  lemma {:induction false} TerminatedGuarded(s: Stmt, cs: seq<Choice>, m: Store, st: State)
    requires s.Try? && CheckGuarded(s, st).terminated
    ensures RunGuarded(s, cs, m).outcome != Normal
    decreases |cs|, s, 0
  {
    hide CheckArms, CheckBlock, RunBlock, RunArm;
    var s0 := EnterBranch(st.keep, st.flow, st);
    var s1, r := CheckBlock(s.body, s0), RunBlock(s.body, cs, m);
    PathsGrow(Catches, s.handlers, {}, st.keep, st.flow, s1, AddPath(Paths([], []), s1));
    TerminatedBlock(s.body, cs, m, s0);
    if r.outcome == Threw && |r.rest| > 0 && r.rest[0].Pick? && r.rest[0].n < Count(s.handlers) {
      TerminatedArm(Catches, s.handlers, {}, st.keep, st.flow, s1, AddPath(Paths([], []), s1),
                    r.rest[0].n, r.rest[1..], r.store);
    }
  }

  // ---- Cases ----

  /** The position of the first case with label `v`. */
  function CaseIndex(arms: Arms, v: Label): nat
    requires v in Labels(arms)
  {
    if arms.tag == v then 0 else 1 + CaseIndex(arms.rest, v)
  }

  function TagAt(arms: Arms, n: nat): Label
    requires n < Count(arms)
  {
    if n == 0 then arms.tag else TagAt(arms.rest, n - 1)
  }

  lemma LeaveNobody(r: Run)
    ensures LeaveUnlessCut({}, r) == r
  {
    assert r.store.env - {} == r.store.env;
    assert (set x | x in {} && Holds(r.store, x) :: Fault(Dropped, x)) == {};
  }

  lemma {:induction false} CaseIsArm(arms: Arms, v: Label, cs: seq<Choice>, m: Store)
    requires v in Labels(arms)
    ensures CaseIndex(arms, v) < Count(arms)
    ensures RunCase(arms, v, cs, m) == RunArm(arms, CaseIndex(arms, v), false, cs, m)
  {
    hide RunBlock;
    LeaveNobody(RunBlock(arms.body, cs, m));
    if arms.tag != v { CaseIsArm(arms.rest, v, cs, m); }
  }

  /** Case labels that are not reported fit the selector and are all different. */
  lemma {:induction false} LabelsChecked(on: Selector, arms: Arms, seen: set<Label>, keep: KeepMap, flow: FlowMap,
                                         st: State, p: Paths, n: nat)
    requires Ready(st) && n < Count(arms)
    requires Quiet(st, CheckArms(SwitchOn(on), arms, seen, keep, flow, st, p).0)
    ensures LabelFits(on, TagAt(arms, n)) && TagAt(arms, n) !in seen
    ensures forall k | 0 <= k < Count(arms) && k != n :: TagAt(arms, k) != TagAt(arms, n)
    decreases arms
  {
    hide CheckBlock, Covers, LabelFits, TopGrows;
    var tag, rest := arms.tag, arms.rest;
    var s0 := EnterBranch(keep, flow, st);
    var s1 := EnterArm(SwitchOn(on), tag, seen, s0);
    var s2 := CheckBlock(arms.body, s1);
    EnterArmGrows(SwitchOn(on), tag, seen, s0);
    BlockGrows(arms.body, s1);
    ArmsGrow(SwitchOn(on), rest, seen + {tag}, keep, flow, s2, AddPath(p, s2));
    var r := CheckArms(SwitchOn(on), rest, seen + {tag}, keep, flow, s2, AddPath(p, s2)).0;
    QuietSplit(s0, s1, s2);
    QuietSplit(s0, s2, r);
    LabelQuiet(on, tag, seen, s0);
    forall k | 0 <= k < Count(rest)
      ensures LabelFits(on, TagAt(rest, k)) && TagAt(rest, k) !in seen + {tag}
      ensures forall i | 0 <= i < Count(rest) && i != k :: TagAt(rest, i) != TagAt(rest, k)
    {
      LabelsChecked(on, rest, seen + {tag}, keep, flow, s2, AddPath(p, s2), k);
    }
    assert forall k | 0 < k < Count(arms) :: TagAt(arms, k) == TagAt(rest, k - 1);
  }

  lemma LabelQuiet(on: Selector, tag: Label, seen: set<Label>, st: State)
    requires Quiet(st, CheckLabel(on, tag, seen, st))
    ensures LabelFits(on, tag) && tag !in seen
  {
  }

  lemma {:induction false} TagOfCase(arms: Arms, v: Label)
    requires v in Labels(arms)
    ensures CaseIndex(arms, v) < Count(arms) && TagAt(arms, CaseIndex(arms, v)) == v
  {
    if arms.tag != v { TagOfCase(arms.rest, v); }
  }

  /** An accepted exhaustive match without a default has exactly one arm for every value
      of its selector, and a run on that value goes through that arm. */
  lemma MatchSelectsOne(s: Stmt, st: State, cs: seq<Choice>, m: Store)
    requires s.Switch? && s.exhaustive && s.els.NoElse? && Ready(st) && Quiet(st, CheckSwitch(s, st))
    requires |cs| > 0 && cs[0].Value? && LabelFits(s.on, cs[0].v)
    ensures exists n :: 0 <= n < Count(s.arms) && TagAt(s.arms, n) == cs[0].v
                   && (forall k | 0 <= k < Count(s.arms) && k != n :: TagAt(s.arms, k) != cs[0].v)
                   && RunStmt(s, cs, m) == RunArm(s.arms, n, false, cs[1..], m)
  {
    hide CheckArms, RunArm, Covers, TopGrows;
    var v := cs[0].v;
    var (s1, p1) := CheckArms(SwitchOn(s.on), s.arms, {}, st.keep, st.flow, st, Paths([], []));
    var all := Covers(s.on, Labels(s.arms));
    ArmsGrow(SwitchOn(s.on), s.arms, {}, st.keep, st.flow, st, Paths([], []));
    assert s1.diagnostics <= ReportIf(!all, s1, NonExhaustiveMatch, NO_SYMBOL).diagnostics;
    assert all && Quiet(st, s1);
    CoversEvery(s.on, Labels(s.arms), v);
    TagOfCase(s.arms, v);
    CaseIsArm(s.arms, v, cs[1..], m);
    LabelsChecked(s.on, s.arms, {}, st.keep, st.flow, st, Paths([], []), CaseIndex(s.arms, v));
  }

  // ---- Whole functions ----

  /** No accepted function with a result runs off its end. */
  lemma AcceptedReturns(body: Stmts, cs: seq<Choice>)
    requires Accepted(body, true)
    ensures RunFunction(body, cs).outcome != Normal
  {
    hide CheckBlock, RunBlock;
    var st := START;
    var s1 := CheckBlock(body, st);
    BlockGrows(body, st);
    var s2 := ReportIf(!s1.terminated, s1, MissingReturn, NO_SYMBOL);
    PopReports(s2);
    TerminatedBlock(body, cs, EMPTY, st);
  }

  lemma PopReports(st: State)
    ensures st.diagnostics <= PopScopes(st).diagnostics
  {
  }
}
