/** The checker's promise about whole functions: an accepted body does no covered local any
    harm, on any run and for any number of loop turns. */
module FlowTheorems {
  import opened FlowSyntax
  import opened FlowState
  import opened FlowChecker
  import opened FlowFrame
  import opened FlowTracking
  import opened FlowFragment
  import opened FlowCoherence
  import opened FlowDoom
  import opened FlowCells
  import opened FlowSoundness
  import opened FlowTermination
  import opened RunLedger
  import opened Runs

  // ---- Before a local is declared ----

  /** `x` is not in scope, in the tables or in the store. */
  ghost predicate Absent(st: State, m: Store, x: Id, terms: Terms) {
    var located := Located(st, x, Outside, -1);
    located && !st.terminated && Distinct(m) && Safe(m, x, terms.Earlier()) && x !in m.env
  }

  /** Whether an exception may have dropped the local by now: one that was caught, or the
      one that ends the run. */
  predicate Spilled(q: Run, terms: Terms) { terms.throws && (terms.tries || q.outcome == Threw) }

  /** After a run that was not cut, `x` is gone again and came to no harm. */
  ghost predicate Gone(q: Run, x: Id, terms: Terms) {
    Distinct(q.store) && Safe(q.store, x, Spilled(q, terms)) && (q.outcome != Cut ==> x !in q.store.env)
  }

  /** `x` owns nothing any more, unless an exception cuts its scope short. */
  predicate Freed(q: Run, x: Id, terms: Terms) { !Holds(q.store, x) || (terms.throws && q.outcome == Threw) }

  /** `x` came to no harm, and if it is in scope it was declared in `ss` and released. */
  ghost predicate Settled(q: Run, x: Id, ss: Stmts, terms: Terms) {
    && Distinct(q.store) && Safe(q.store, x, Spilled(q, terms))
    && (q.outcome != Cut && x in q.store.env ==> x in Decls(ss) && Freed(q, x, terms))
  }

  lemma LeaveSettled(body: Stmts, q: Run, x: Id, terms: Terms)
    requires Settled(q, x, body, terms)
    ensures Gone(LeaveUnlessCut(Decls(body), q), x, terms)
  {
  }

  lemma {:induction false} AbsentStmt(s: Stmt, cs: seq<Choice>, m: Store, st: State, x: Id, terms: Terms)
    requires Resolved(s, x, Outside) && Covered(s, x, Outside, terms) && After(s, x, Outside) == Outside
    requires Absent(st, m, x, terms) && Depth(st) <= Top(st) && Quiet(st, Check(s, st))
    ensures Gone(RunStmt(s, cs, m), x, terms)
    decreases |cs|, s, 2
  {
    hide Located, Covered, Distinct, Safe, CheckBlock, CheckIf, CheckSwitch, CheckTry, CheckLoop, RunBlock, RunLoop,
         RunAgain, RunArm, RunElse, RunCase, RunTry, CoveredAll, CoveredArms, CoveredElse, ResolvedAll, ResolvedArms,
         ResolvedElse, Exec, Depth;
    match s
    case Do(op, y) => AbsentOp(op, y, m, x, terms);
    case Block(body) => AbsentInside(s, x, terms); AbsentBlock(body, cs, m, st, x, terms);
    case If(_, _) => AbsentIf(s, cs, m, st, x, terms);
    case Switch(_, _, _, _) => AbsentSwitch(s, cs, m, st, x, terms);
    case While(body) => AbsentInside(s, x, terms); AbsentLoop(body, Paths([st.keep], [st.flow]), cs, m, st, x, terms);
    case DoWhile(body) => AbsentInside(s, x, terms); AbsentDoWhile(body, cs, m, st, x, terms);
    case Try(_, _, _) => AbsentTry(s, cs, m, st, x, terms);
    case _ => AbsentStays(RunStmt(s, cs, m), m, st, x, terms);
  }

  lemma AbsentStays(q: Run, m: Store, st: State, x: Id, terms: Terms)
    requires Absent(st, m, x, terms) && q.store == m
    ensures Gone(q, x, terms)
  {
  }

  lemma AbsentInside(s: Stmt, x: Id, terms: Terms)
    requires Covered(s, x, Outside, terms)
    ensures s.Block? ==> CoveredAll(s.body, x, Outside, terms)
    ensures s.While? ==> CoveredAll(s.body, x, Outside, terms)
    ensures s.DoWhile? ==> CoveredAll(s.body, x, Outside, terms)
    ensures s.Try? ==>
              && terms.tries && CoveredAll(s.body, x, Outside, terms)
              && CoveredArms(s.handlers, x, Outside, terms) && CoveredElse(s.fin, x, Outside, terms)
    ensures s.If? || s.Switch? ==> CoveredArms(s.arms, x, Outside, terms) && CoveredElse(s.els, x, Outside, terms)
  {
    hide CoveredAll, CoveredArms, CoveredElse;
  }

  lemma AbsentOp(op: Op, y: Id, m: Store, x: Id, terms: Terms)
    requires Distinct(m) && Safe(m, x, terms.Earlier()) && x !in m.env && y != x
    ensures Distinct(Exec(op, y, m)) && Safe(Exec(op, y, m), x, terms.Earlier()) && x !in Exec(op, y, m).env
  {
    ExecDistinct(op, y, m);
    ExecOther(op, y, m, x);
  }

  /** What one statement leaves for the next. */
  lemma AbsentThen(s: Stmt, m: Store, st: State, q: Run, x: Id, terms: Terms)
    requires Resolved(s, x, Outside) && After(s, x, Outside) == Outside
    requires Absent(st, m, x, terms) && Gone(q, x, terms) && q.outcome == Normal && !Check(s, st).terminated
    ensures Absent(Check(s, st), q.store, x, terms)
  {
    hide Check, Only, Resolved, Distinct, Safe;
    CheckTracks(s, st, x, Outside, -1);
  }

  lemma SameHeight(s: Stmt, st: State)
    requires Ready(st)
    ensures Depth(Check(s, st)) == Depth(st) && Top(Check(s, st)) == Top(st) && Ready(Check(s, st))
  {
    CheckGrows(s, st);
  }

  lemma {:induction false} AbsentAll(ss: Stmts, cs: seq<Choice>, m: Store, st: State, x: Id, terms: Terms)
    requires ResolvedAll(ss, x, Outside) && CoveredAll(ss, x, Outside, terms)
    requires Absent(st, m, x, terms) && Depth(st) <= Top(st) && Quiet(st, PopScopes(CheckAll(ss, st)))
    ensures Settled(RunAll(ss, cs, m), x, ss, terms)
    decreases |cs|, ss, 1
  {
    hide Only, Distinct, Check, RunStmt, Covered, Resolved, PopScopes, TopGrows, Holds, Exec;
    match ss
    case End =>
    case Then(s, tail) =>
      var s1, q := Check(s, st), RunStmt(s, cs, m);
      TailQuiet(s, tail, st);
      if After(s, x, Outside) == Outside {
        AbsentStmt(s, cs, m, st, x, terms);
        if s1.terminated { TerminatedStmt(s, cs, m, st); }
        if q.outcome == Normal {
          AbsentThen(s, m, st, q, x, terms);
          SameHeight(s, st);
          AbsentAll(tail, q.rest, q.store, s1, x, terms);
        }
      } else {
        DeclaredHere(s, tail, cs, m, st, x, terms);
      }
  }

  /** The parts of a list that reports nothing report nothing. */
  lemma TailQuiet(s: Stmt, tail: Stmts, st: State)
    requires Ready(st) && Quiet(st, PopScopes(CheckAll(Then(s, tail), st)))
    ensures Quiet(st, Check(s, st))
    ensures !Check(s, st).terminated ==>
              && Quiet(Check(s, st), CheckAll(tail, Check(s, st)))
              && Quiet(Check(s, st), PopScopes(CheckAll(tail, Check(s, st))))
              && Quiet(CheckAll(tail, Check(s, st)), PopScopes(CheckAll(tail, Check(s, st))))
  {
    hide Check, PopScopes, TopGrows;
    var s1 := Check(s, st);
    CheckGrows(s, st);
    if s1.terminated {
      PopQuiet(s1);
      QuietSplit(st, s1, PopScopes(s1));
    } else {
      AllGrows(tail, s1);
      var r := CheckAll(tail, s1);
      PopQuiet(r);
      QuietSplit(st, s1, PopScopes(r));
      QuietSplit(s1, r, PopScopes(r));
    }
  }

  /** The declaration of `x`: from here to the end of the block the tables follow it. */
  lemma {:induction false} DeclaredHere(s: Stmt, tail: Stmts, cs: seq<Choice>, m: Store, st: State, x: Id, terms: Terms)
    requires After(s, x, Outside) != Outside
    requires Resolved(s, x, Outside) && ResolvedAll(tail, x, After(s, x, Outside))
    requires CoveredAll(tail, x, After(s, x, Outside), terms)
    requires Absent(st, m, x, terms) && Depth(st) <= Top(st)
    requires var s1 := Check(s, st);
             && Quiet(st, s1) && (!s1.terminated ==> Quiet(s1, CheckAll(tail, s1)))
             && (!s1.terminated ==> Quiet(CheckAll(tail, s1), PopScopes(CheckAll(tail, s1))))
    ensures Settled(RunAll(Then(s, tail), cs, m), x, Then(s, tail), terms)
  {
    hide Right, Located, Coherent, Distinct, CheckAll, RunAll, Outcomes, Unmoved, ResolvedAll, CoveredAll, PopScopes;
    var kind := KindOf(s.op);
    var s1, m1 := CheckOp(s.op, x, st), Exec(s.op, x, m);
    var e := Site(x, kind, Top(st), terms, Off, false);
    DeclaredBefore(s.op, m, st, x, terms, e);
    DeclaredGood(tail, s1, e);
    SoundAll(tail, cs, m1, s1, e);
    var q := RunAll(tail, cs, m1);
    DeclaredSettled(tail, s1, CheckAll(tail, s1), m1, q, e, !MentionsAll(tail, x, Assigning),
                    !MentionsAll(tail, x, Changing),
                    ResumeAll(tail, x));
    OneThen(s, tail, cs, m);
  }

  lemma OneThen(s: Stmt, tail: Stmts, cs: seq<Choice>, m: Store)
    requires s.Do?
    ensures RunAll(Then(s, tail), cs, m) == RunAll(tail, cs, Exec(s.op, s.x, m))
  {
  }

  lemma DeclaredBefore(op: Op, m: Store, st: State, x: Id, terms: Terms, e: Site)
    requires Declares(op) && Absent(st, m, x, terms) && Depth(st) <= Top(st)
    requires e == Site(x, KindOf(op), Top(st), terms, Off, false)
    ensures Before(CheckOp(op, x, st), Exec(op, x, m), e)
    ensures WatchFits(CheckOp(op, x, st), e, true, Late) && e.lv >= Depth(CheckOp(op, x, st))
    ensures e.lv == Top(CheckOp(op, x, st)) && Ready(CheckOp(op, x, st))
  {
    hide Only, Right;
    OpGrows(op, x, st);
    LocatedOp(op, x, st, x, Outside, -1);
    DeclarationCoherent(op, st, x, terms.nulled);
    ExecDistinct(op, x, m);
    ExecDeclares(op, st, x, m, terms.Earlier());
  }

  /** A block that reports nothing leaves none of its owners doomed. */
  lemma DeclaredGood(tail: Stmts, st: State, e: Site)
    requires Ready(st) && Located(st, e.x, Inside(e.kind), e.lv) && e.lv == Top(st) && e.watch == Off
    requires ResolvedAll(tail, e.x, Inside(e.kind))
    requires Quiet(CheckAll(tail, st), PopScopes(CheckAll(tail, st)))
    ensures Good(CheckAll(tail, st), e)
  {
    hide CheckAll, ResolvedAll, Only;
    var r := CheckAll(tail, st);
    AllGrows(tail, st);
    AllTracks(tail, st, e.x, Inside(e.kind), e.lv);
    if !r.terminated { QuietPop(r, e.x, e.kind, e.lv); }
  }

  lemma DeclaredSettled(tail: Stmts, st: State, r: State, m: Store, q: Run, e: Site, still: bool, untouched: bool,
                        continues: Resumes)
    requires Ready(st) && Located(st, e.x, Inside(e.kind), e.lv) && e.lv == Top(st) && e.lv >= Depth(st)
    requires Coherent(st, e.x, e.kind, e.terms.nulled) && r == CheckAll(tail, st) && Quiet(r, PopScopes(r))
    requires ResolvedAll(tail, e.x, Inside(e.kind)) && CoveredAll(tail, e.x, Inside(e.kind), e.terms)
    requires Sound(st, r, m, q, e, still, untouched, continues)
    ensures Distinct(q.store) && Safe(q.store, e.x, e.terms.Earlier()) && (q.outcome != Cut ==> Freed(q, e.x, e.terms))
  {
    hide CheckAll, ResolvedAll, CoveredAll, Only, RightExit, RightKeep, Right, Coherent, Distinct, Safe, Frozen,
         Unchanged, MentionsAll, PopScopes;
    AllGrows(tail, st);
    AllTracks(tail, st, e.x, Inside(e.kind), e.lv);
    if q.outcome == Normal {
      QuietPop(r, e.x, e.kind, e.lv);
      var nulled := e.terms.nulled || MentionsAll(tail, e.x, Nulling);
      PastState(st, e, MentionsAll(tail, e.x, Nulling));
      if e.kind == RawOwner { CoveredPassesAll(tail, e.x, e.kind, e.terms); }
      AllSteps(tail, st, e.x, e.kind, e.lv, nulled);
      ReleasedCell(r, e.x, e.kind, nulled, q.store, e.blind);
    }
  }

  lemma {:induction false} AbsentBlock(body: Stmts, cs: seq<Choice>, m: Store, st: State, x: Id, terms: Terms)
    requires ResolvedAll(body, x, Outside) && CoveredAll(body, x, Outside, terms)
    requires Absent(st, m, x, terms) && Depth(st) <= Top(st) + 1 && Quiet(st, CheckBlock(body, st))
    ensures Gone(RunBlock(body, cs, m), x, terms)
    decreases |cs|, body, 2
  {
    hide CheckAll, RunAll, ResolvedAll, CoveredAll, Only, PopScopes, Settled, Distinct, Safe;
    LocatedPush(st, x, Outside, -1);
    AbsentAll(body, cs, m, PushScopes(st), x, terms);
    LeaveSettled(body, RunAll(body, cs, m), x, terms);
  }

  // ---- Branches ----

  /** Before a branch: from the tables `keep` and `flow`, in the stacks of `st`. */
  ghost predicate AbsentThere(keep: KeepMap, flow: FlowMap, st: State, m: Store, x: Id, terms: Terms) {
    var absent := Absent(EnterBranch(keep, flow, st), m, x, terms);
    absent && Depth(st) <= Top(st)
  }

  lemma {:induction false} AbsentArm(kind: ArmKind, arms: Arms, seen: set<Label>, keep: KeepMap, flow: FlowMap,
                                     st: State, p: Paths, n: nat, cs: seq<Choice>, m: Store, x: Id, terms: Terms)
    requires n < Count(arms) && (kind.Catches? || NoneCaught(arms))
    requires ResolvedArms(arms, x, Outside) && CoveredArms(arms, x, Outside, terms)
    requires AbsentThere(keep, flow, st, m, x, terms) && Quiet(st, CheckArms(kind, arms, seen, keep, flow, st, p).0)
    ensures Gone(RunArm(arms, n, kind.Catches?, cs, m), x, terms)
    decreases |cs|, arms, 0
  {
    hide CheckBlock, EnterArm, LeaveArm, RunBlock, AddPath, AbsentThere, ResolvedAll, CoveredAll, LeaveUnlessCut, Bind,
         Bound, Gone;
    var tag, body, rest := arms.tag, arms.body, arms.rest;
    var s2 := CheckBlock(body, EnterArm(kind, tag, seen, EnterBranch(keep, flow, st)));
    ArmQuiet(kind, tag, body, rest, seen, keep, flow, st, s2, p, m, x, terms);
    if n > 0 {
      AbsentArm(kind, rest, seen + {tag}, keep, flow, LeaveArm(kind, s2), AddPath(p, s2), n - 1, cs, m, x, terms);
    } else if tag == Caught(x) {
      CaughtArm(kind, tag, body, seen, keep, flow, st, cs, m, x, terms);
    } else {
      AbsentArmBody(kind, tag, body, seen, keep, flow, st, cs, m, x, terms);
    }
  }

  lemma ArmQuiet(kind: ArmKind, tag: Label, body: Stmts, rest: Arms, seen: set<Label>, keep: KeepMap, flow: FlowMap,
                 st: State, s2: State, p: Paths, m: Store, x: Id, terms: Terms)
    requires tag == Caught(x) ==> kind.Catches?
    requires ResolvedAll(body, x, if tag == Caught(x) then Inside(Exception) else Outside)
    requires s2 == CheckBlock(body, EnterArm(kind, tag, seen, EnterBranch(keep, flow, st)))
    requires AbsentThere(keep, flow, st, m, x, terms)
    requires Quiet(st, CheckArms(kind, rest, seen + {tag}, keep, flow, LeaveArm(kind, s2), AddPath(p, s2)).0)
    ensures Quiet(st, s2)
    ensures Quiet(LeaveArm(kind, s2),
                  CheckArms(kind, rest, seen + {tag}, keep, flow, LeaveArm(kind, s2), AddPath(p, s2)).0)
    ensures AbsentThere(keep, flow, LeaveArm(kind, s2), m, x, terms)
  {
    hide CheckBlock, CheckArms, EnterArm, LeaveArm, ResolvedAll, TopGrows;
    var s0, s3 := EnterBranch(keep, flow, st), LeaveArm(kind, s2);
    var r := CheckArms(kind, rest, seen + {tag}, keep, flow, s3, AddPath(p, s2)).0;
    ArmKeepsFrame(kind, tag, body, seen, keep, flow, st);
    ArmsGrow(kind, rest, seen + {tag}, keep, flow, s3, AddPath(p, s2));
    QuietSplit(s0, s2, r);
    QuietSplit(s2, s3, r);
    assert Located(st.(keep := keep, flow := flow), x, Outside, -1);
    ArmTracks(kind, tag, body, seen, keep, flow, st, x, Outside, -1);
    ArmHeight(kind, tag, body, seen, s0);
  }

  lemma ArmHeight(kind: ArmKind, tag: Label, body: Stmts, seen: set<Label>, st: State)
    requires Ready(st)
    ensures Top(LeaveArm(kind, CheckBlock(body, EnterArm(kind, tag, seen, st)))) == Top(st)
  {
    hide CheckBlock, EnterArm, PopScopes;
    var s1 := EnterArm(kind, tag, seen, st);
    EnterArmHeight(kind, tag, seen, st);
    BlockHeight(body, s1);
    BlockGrows(body, s1);
    if kind.Catches? { PopHeight(CheckBlock(body, s1)); }
  }

  lemma PopHeight(st: State)
    requires Ready(st)
    ensures Top(PopScopes(st)) == Top(st) - 1
  {
  }

  lemma {:induction false} AbsentArmBody(kind: ArmKind, tag: Label, body: Stmts, seen: set<Label>, keep: KeepMap,
                                         flow: FlowMap,
                                         st: State, cs: seq<Choice>, m: Store, x: Id, terms: Terms)
    requires tag != Caught(x) && ResolvedAll(body, x, Outside) && CoveredAll(body, x, Outside, terms)
    requires AbsentThere(keep, flow, st, m, x, terms)
    requires Quiet(st, CheckBlock(body, EnterArm(kind, tag, seen, EnterBranch(keep, flow, st))))
    ensures Gone(LeaveUnlessCut(Bound(kind.Catches?, tag), RunBlock(body, cs, Bind(kind.Catches?, tag, m))), x, terms)
    decreases |cs|, body, 3
  {
    hide CheckBlock, RunBlock, EnterArm, ResolvedAll, CoveredAll, Only, TopGrows;
    var s0 := EnterBranch(keep, flow, st);
    var s1 := EnterArm(kind, tag, seen, s0);
    EnterArmAbsent(kind, tag, seen, s0, m, x, terms);
    BlockGrows(body, s1);
    QuietSplit(s0, s1, CheckBlock(body, s1));
    AbsentBlock(body, cs, Bind(kind.Catches?, tag, m), s1, x, terms);
    LeaveOther(Bound(kind.Catches?, tag), RunBlock(body, cs, Bind(kind.Catches?, tag, m)).store, x);
  }

  lemma EnterArmAbsent(kind: ArmKind, tag: Label, seen: set<Label>, st: State, m: Store, x: Id, terms: Terms)
    requires tag != Caught(x) && Absent(st, m, x, terms) && Depth(st) <= Top(st)
    ensures var r := EnterArm(kind, tag, seen, st);
            && Absent(r, Bind(kind.Catches?, tag, m), x, terms) && Depth(r) <= Top(r) + 1 && Ready(r)
            && st.diagnostics <= r.diagnostics
  {
    EnterArmTracks(kind, tag, seen, st, x, Outside, -1);
    EnterArmKeeps(kind, tag, seen, st, x);
    EnterArmHeight(kind, tag, seen, st);
    BindOther(kind.Catches?, tag, m, x);
  }

  /** The clause that catches into `x`. */
  lemma {:induction false} CaughtArm(kind: ArmKind, tag: Label, body: Stmts, seen: set<Label>, keep: KeepMap,
                                     flow: FlowMap,
                                     st: State, cs: seq<Choice>, m: Store, x: Id, terms: Terms)
    requires kind.Catches? && tag == Caught(x)
    requires ResolvedAll(body, x, Inside(Exception)) && CoveredAll(body, x, Inside(Exception), terms)
    requires AbsentThere(keep, flow, st, m, x, terms)
    requires Quiet(st, CheckBlock(body, EnterArm(kind, tag, seen, EnterBranch(keep, flow, st))))
    ensures Gone(LeaveUnlessCut(Bound(true, tag), RunBlock(body, cs, Bind(true, tag, m))), x, terms)
  {
    hide CheckBlock, RunBlock, EnterArm, MentionsAll, ResumeAll, ResolvedAll, CoveredAll, TopGrows, Right, Located,
         Coherent, Outcomes, Distinct;
    var s0 := EnterBranch(keep, flow, st);
    var s1 := EnterArm(kind, tag, seen, s0);
    var e := Site(x, Exception, Top(st) + 1, terms, Off, false);
    CaughtBefore(kind, tag, seen, s0, m, x, terms, e);
    BlockGrows(body, s1);
    QuietSplit(s0, s1, CheckBlock(body, s1));
    SoundBlock(body, cs, Bind(true, tag, m), s1, e);
    var q := RunBlock(body, cs, Bind(true, tag, m));
    CaughtGone(q, m, s1, tag, x, e, !MentionsAll(body, x, Assigning), !MentionsAll(body, x, Changing), terms);
  }

  lemma CaughtBefore(kind: ArmKind, tag: Label, seen: set<Label>, st: State, m: Store, x: Id, terms: Terms, e: Site)
    requires kind.Catches? && tag == Caught(x) && Absent(st, m, x, terms)
    requires e == Site(x, Exception, Top(st) + 1, terms, Off, false)
    ensures var s1 := EnterArm(kind, tag, seen, st);
            Before(s1, Bind(true, tag, m), e) && Ready(s1) && st.diagnostics <= s1.diagnostics
  {
    EnterArmTracks(kind, tag, seen, st, x, Outside, -1);
    EnterArmGrows(kind, tag, seen, st);
  }

  lemma CaughtGone(q: Run, m: Store, s1: State, tag: Label, x: Id, e: Site, still: bool, untouched: bool, terms: Terms)
    requires tag == Caught(x) && e.x == x && e.kind == Exception && e.terms == terms
    requires Unmoved(s1, Bind(true, tag, m), q.store, e, still, untouched)
    ensures Gone(LeaveUnlessCut(Bound(true, tag), q), x, terms)
  {
  }

  lemma {:induction false} AbsentElse(els: Else, keep: KeepMap, flow: FlowMap, open: bool, st: State, p: Paths,
                                      cs: seq<Choice>, m: Store, x: Id, terms: Terms)
    requires ResolvedElse(els, x, Outside) && CoveredElse(els, x, Outside, terms)
    requires AbsentThere(keep, flow, st, m, x, terms) && Quiet(st, CheckElse(els, keep, flow, open, st, p).0)
    ensures Gone(RunElse(els, cs, m), x, terms)
    decreases |cs|, els, 0
  {
    hide CheckBlock, RunBlock, ResolvedAll, CoveredAll, Only;
    if els.ElseBody? { AbsentBlock(els.body, cs, m, EnterBranch(keep, flow, st), x, terms); }
  }

  /** The common part of if and switch. */
  lemma BranchesQuiet(kind: ArmKind, arms: Arms, els: Else, open: bool, st: State, s1: State, p1: Paths, m: Store,
                      x: Id, terms: Terms)
    requires !kind.Catches? && NoneCaught(arms) && ResolvedArms(arms, x, Outside)
    requires Absent(st, m, x, terms) && Depth(st) <= Top(st)
    requires (s1, p1) == CheckArms(kind, arms, {}, st.keep, st.flow, st, Paths([], []))
    requires Quiet(st, CheckElse(els, st.keep, st.flow, open, s1, p1).0)
    ensures Quiet(st, s1) && Quiet(s1, CheckElse(els, st.keep, st.flow, open, s1, p1).0)
    ensures AbsentThere(st.keep, st.flow, st, m, x, terms) && AbsentThere(st.keep, st.flow, s1, m, x, terms)
  {
    hide CheckArms, CheckElse, ResolvedArms, TopGrows;
    ArmsGrow(kind, arms, {}, st.keep, st.flow, st, Paths([], []));
    ElseGrows(els, st.keep, st.flow, open, s1, p1);
    QuietSplit(st, s1, CheckElse(els, st.keep, st.flow, open, s1, p1).0);
    assert st.(keep := st.keep, flow := st.flow) == st;
    ArmsTrack(kind, arms, {}, st.keep, st.flow, st, Paths([], []), x, Outside, -1);
  }

  lemma {:induction false} AbsentIf(s: Stmt, cs: seq<Choice>, m: Store, st: State, x: Id, terms: Terms)
    requires s.If? && Resolved(s, x, Outside) && Covered(s, x, Outside, terms)
    requires Absent(st, m, x, terms) && Depth(st) <= Top(st) && Quiet(st, CheckIf(s, st))
    ensures Gone(RunStmt(s, cs, m), x, terms)
    decreases |cs|, s, 1
  {
    hide CheckArms, CheckElse, RunArm, RunElse, ResolvedArms, ResolvedElse, CoveredArms, CoveredElse, Located,
         AbsentThere;
    var (s1, p1) := CheckArms(IfChain, s.arms, {}, st.keep, st.flow, st, Paths([], []));
    BranchesQuiet(IfChain, s.arms, s.els, true, st, s1, p1, m, x, terms);
    if |cs| > 0 && cs[0].Pick? {
      if cs[0].n < Count(s.arms) {
        AbsentArm(IfChain, s.arms, {}, st.keep, st.flow, st, Paths([], []), cs[0].n, cs[1..], m, x, terms);
      } else {
        AbsentElse(s.els, st.keep, st.flow, true, s1, p1, cs[1..], m, x, terms);
      }
    }
  }

  lemma {:induction false} AbsentSwitch(s: Stmt, cs: seq<Choice>, m: Store, st: State, x: Id, terms: Terms)
    requires s.Switch? && Resolved(s, x, Outside) && Covered(s, x, Outside, terms)
    requires Absent(st, m, x, terms) && Depth(st) <= Top(st) && Quiet(st, CheckSwitch(s, st))
    ensures Gone(RunStmt(s, cs, m), x, terms)
    decreases |cs|, s, 1
  {
    hide CheckArms, CheckElse, RunArm, RunElse, RunStmt, ResolvedArms, ResolvedElse, CoveredArms, CoveredElse, Located,
         AbsentThere, Covers, Labels, LabelFits, Count, Distinct, Safe, CheckSwitch, Only;
    var all := s.els.ElseBody? || Covers(s.on, Labels(s.arms));
    var (s1, p1) := CheckArms(SwitchOn(s.on), s.arms, {}, st.keep, st.flow, st, Paths([], []));
    var (s2, p2) := CheckElse(s.els, st.keep, st.flow, !all, s1, p1);
    AbsentReady(st, m, x, terms);
    SwitchQuiet(s, st, all, s2, p2);
    BranchesQuiet(SwitchOn(s.on), s.arms, s.els, !all, st, s1, p1, m, x, terms);
    if |cs| > 0 && cs[0].Value? && LabelFits(s.on, cs[0].v) {
      var pick := SwitchPicks(s, all, cs, m);
      if pick < Count(s.arms) {
        AbsentArm(SwitchOn(s.on), s.arms, {}, st.keep, st.flow, st, Paths([], []), pick, cs[1..], m, x, terms);
      } else {
        AbsentElse(s.els, st.keep, st.flow, !all, s1, p1, cs[1..], m, x, terms);
      }
    } else {
      SwitchCut(s, cs, m);
    }
  }

  lemma AbsentReady(st: State, m: Store, x: Id, terms: Terms)
    requires Absent(st, m, x, terms)
    ensures Ready(st)
  {
  }

  // ---- Loops ----

  lemma {:induction false} AbsentTurn(body: Stmts, first: Paths, cs: seq<Choice>, m: Store, st: State, x: Id,
                                      terms: Terms)
    requires ResolvedAll(body, x, Outside) && CoveredAll(body, x, Outside, terms)
    requires Absent(st, m, x, terms) && Quiet(st, CheckLoop(body, first, st))
    ensures Gone(RunBlock(body, cs, m), x, terms)
    decreases |cs|, body, 3
  {
    hide CheckBlock, RunBlock, ResolvedAll, CoveredAll, MergeKeepPaths, MergeFlowPaths;
    AbsentBlock(body, cs, m, EnterLoop(st), x, terms);
  }

  lemma {:induction false} AbsentLoop(body: Stmts, first: Paths, cs: seq<Choice>, m: Store, st: State, x: Id,
                                      terms: Terms)
    requires ResolvedAll(body, x, Outside) && CoveredAll(body, x, Outside, terms)
    requires Absent(st, m, x, terms) && Quiet(st, CheckLoop(body, first, st))
    ensures Gone(RunLoop(body, cs, m), x, terms)
    decreases |cs|, body, 4
  {
    hide CheckLoop, RunBlock, ResolvedAll, CoveredAll, Located, Distinct, Safe;
    if |cs| > 0 && cs[0].Pick? && cs[0].n != 0 {
      var q := RunBlock(body, cs[1..], m);
      AbsentTurn(body, first, cs[1..], m, st, x, terms);
      if q.outcome == Normal || q.outcome == Continued { AbsentLoop(body, first, q.rest, q.store, st, x, terms); }
    }
  }

  lemma {:induction false} AbsentDoWhile(body: Stmts, cs: seq<Choice>, m: Store, st: State, x: Id, terms: Terms)
    requires ResolvedAll(body, x, Outside) && CoveredAll(body, x, Outside, terms)
    requires Absent(st, m, x, terms) && Quiet(st, CheckLoop(body, Paths([], []), st))
    ensures Gone(RunAgain(body, RunBlock(body, cs, m), cs), x, terms)
    decreases |cs|, body, 5
  {
    hide CheckLoop, RunBlock, RunLoop, ResolvedAll, CoveredAll, Located, Distinct, Safe;
    var q := RunBlock(body, cs, m);
    AbsentTurn(body, Paths([], []), cs, m, st, x, terms);
    if q.outcome == Normal || q.outcome == Continued {
      AbsentLoop(body, Paths([], []), q.rest, q.store, st, x, terms);
    }
  }

  // ---- Try ----

  lemma GuardedQuiet(s: Stmt, st: State, s1: State, p1: Paths, m: Store, x: Id, terms: Terms)
    requires s.Try? && ResolvedAll(s.body, x, Outside) && Absent(st, m, x, terms) && Depth(st) <= Top(st)
    requires s1 == CheckBlock(s.body, st) && p1 == AddPath(Paths([], []), s1)
    requires Quiet(st, CheckGuarded(s, st))
    ensures Quiet(st, s1) && Quiet(s1, CheckArms(Catches, s.handlers, {}, st.keep, st.flow, s1, p1).0)
    ensures forall n: Store | Distinct(n) && Safe(n, x, terms.Earlier()) && x !in n.env ::
              AbsentThere(st.keep, st.flow, s1, n, x, terms)
  {
    hide CheckBlock, CheckArms, ResolvedAll, TopGrows, MergeKeepPaths, MergeFlowPaths, Distinct, Safe;
    assert EnterBranch(st.keep, st.flow, st) == st;
    BlockGrows(s.body, st);
    ArmsGrow(Catches, s.handlers, {}, st.keep, st.flow, s1, p1);
    QuietSplit(st, s1, CheckArms(Catches, s.handlers, {}, st.keep, st.flow, s1, p1).0);
    BlockTracks(s.body, st, x, Outside, -1);
    LocatedReset(st, s1, x, Outside, -1);
    BlockHeight(s.body, st);
  }

  lemma {:induction false} AbsentGuarded(s: Stmt, cs: seq<Choice>, m: Store, st: State, x: Id, terms: Terms)
    requires s.Try? && ResolvedAll(s.body, x, Outside) && ResolvedArms(s.handlers, x, Outside)
    requires CoveredAll(s.body, x, Outside, terms) && CoveredArms(s.handlers, x, Outside, terms) && terms.tries
    requires Absent(st, m, x, terms) && Depth(st) <= Top(st) && Quiet(st, CheckGuarded(s, st))
    ensures Gone(RunGuarded(s, cs, m), x, terms)
    decreases |cs|, s, 0
  {
    hide CheckBlock, CheckArms, CheckGuarded, RunBlock, RunArm, ResolvedAll, ResolvedArms, CoveredAll, CoveredArms,
         Distinct, Safe, AbsentThere, Located;
    var s1, r := CheckBlock(s.body, st), RunBlock(s.body, cs, m);
    GuardedQuiet(s, st, s1, AddPath(Paths([], []), s1), m, x, terms);
    AbsentBlock(s.body, cs, m, st, x, terms);
    if r.outcome == Threw && |r.rest| > 0 && r.rest[0].Pick? && r.rest[0].n < Count(s.handlers) {
      AbsentArm(Catches, s.handlers, {}, st.keep, st.flow, s1, AddPath(Paths([], []), s1), r.rest[0].n, r.rest[1..],
                r.store, x, terms);
    }
  }

  lemma TryQuiet(s: Stmt, st: State, m: Store, x: Id, terms: Terms)
    requires s.Try? && Resolved(s, x, Outside) && Absent(st, m, x, terms) && Depth(st) <= Top(st)
             && Quiet(st, CheckTry(s, st))
    ensures var g := CheckGuarded(s, st);
            && Quiet(st, g) && Quiet(g, CheckFinally(s.fin, g)) && Depth(g) <= Top(g)
            && Located(g.(terminated := false, finallyDepth := g.finallyDepth + 1), x, Outside, -1)
  {
    hide CheckGuarded, CheckFinally, Resolved, TopGrows;
    var g := CheckGuarded(s, st);
    GuardedGrows(s, st);
    FinallyGrows(s.fin, g);
    QuietSplit(st, g, CheckFinally(s.fin, g));
    GuardedTracks(s, st, x, Outside, -1);
    SameTables(g, g.(terminated := false, finallyDepth := g.finallyDepth + 1), x, Outside, -1);
  }

  lemma {:induction false} AbsentTry(s: Stmt, cs: seq<Choice>, m: Store, st: State, x: Id, terms: Terms)
    requires s.Try? && Resolved(s, x, Outside) && Covered(s, x, Outside, terms)
    requires Absent(st, m, x, terms) && Depth(st) <= Top(st) && Quiet(st, CheckTry(s, st))
    ensures Gone(RunTry(s, cs, m), x, terms)
    decreases |cs|, s, 1
  {
    hide CheckBlock, CheckGuarded, RunGuarded, RunBlock, ResolvedAll, ResolvedArms, ResolvedElse, CoveredAll,
         CoveredArms, CoveredElse, Distinct, Safe, Located;
    var g, q := CheckGuarded(s, st), RunGuarded(s, cs, m);
    AbsentInside(s, x, terms);
    TryQuiet(s, st, m, x, terms);
    AbsentGuarded(s, cs, m, st, x, terms);
    if q.outcome != Cut { AbsentFinally(s.fin, q, g, x, terms); }
  }

  lemma {:induction false} AbsentFinally(fin: Else, q: Run, g: State, x: Id, terms: Terms)
    requires ResolvedElse(fin, x, Outside) && CoveredElse(fin, x, Outside, terms)
    requires Gone(q, x, terms) && terms.tries && q.outcome != Cut && Depth(g) <= Top(g)
             && Quiet(g, CheckFinally(fin, g))
    requires Located(g.(terminated := false, finallyDepth := g.finallyDepth + 1), x, Outside, -1)
    ensures Gone(RunElse(fin, q.rest, q.store), x, terms)
    decreases |q.rest|, fin, 0
  {
    hide CheckBlock, RunBlock, ResolvedAll, CoveredAll, Distinct, Safe, Located;
    if fin.ElseBody? {
      var f0 := g.(terminated := false, finallyDepth := g.finallyDepth + 1);
      AbsentBlock(fin.body, q.rest, q.store, f0, x, terms);
    }
  }

  // ---- Doom ----

  /** An owner that may be invalid and still owes its delete, or a task that may be pending,
      cannot get out of the block that declares it without a report, whatever the block
      still does: delete, overwrite, use, loop, try, break, continue, return or just end. */
  lemma DoomIsReported(ss: Stmts, st: State, x: Id, kind: Kind)
    requires Located(st, x, Inside(kind), Top(st)) && Depth(st) <= Top(st) && !st.terminated
    requires Owned(Inside(kind)) && Doomed(st, x, kind)
    requires ResolvedAll(ss, x, Inside(kind)) && PassableAll(ss)
    ensures !Quiet(st, PopScopes(CheckAll(ss, st)))
  {
    hide CheckAll, ResolvedAll, PassableAll, Only;
    var r := CheckAll(ss, st);
    AllGrows(ss, st);
    PopQuiet(r);
    if Quiet(st, PopScopes(r)) {
      QuietSplit(st, r, PopScopes(r));
      AllDoom(ss, st, x, kind, Top(st));
      AllTracks(ss, st, x, Inside(kind), Top(st));
      QuietPop(r, x, kind, Top(st));
    }
  }

  /** The one thing it may not do: a switch that is never passed hides any doom, because the
      walk ends there without looking at a scope. */
  lemma BlindSwitchHides(s: Stmt, tail: Stmts, st: State)
    requires s.Switch? && Blind(s.on, s.arms, s.els) && Ready(st)
    ensures Quiet(st, PopScopes(CheckAll(Then(s, tail), st)))
  {
    hide Check;
    BlindSwitchEnds(s, st);
    assert CheckAll(Then(s, tail), st) == st.(terminated := true);
  }

  lemma BlindSwitchEnds(s: Stmt, st: State)
    requires s.Switch? && Blind(s.on, s.arms, s.els)
    ensures Check(s, st) == st.(terminated := true)
  {
    assert Covers(s.on, Labels(s.arms));
    var p := Paths([], []);
    assert CheckArms(SwitchOn(s.on), s.arms, {}, st.keep, st.flow, st, p) == (st, p);
    assert CheckElse(s.els, st.keep, st.flow, false, st, p) == (st, p);
    assert CheckSwitch(s, st) == Rejoin(st.keep, st.flow, p, true, st);
  }

  // ---- For-each ----

  /** A for-each, step by step: both scopes are opened, the loop variable enters as an
      assigned local, the body is walked once with the entry as an exit, the scopes are left. */
  lemma ForEachVisit(x: Id, body: Stmts, st: State)
    requires Ready(st) && !st.terminated && x !in st.keep
    ensures var s := RegisterFlow(PushScopes(st), x, NO_FLOW);
            Check(ForEach(x, body), st) == PopScopes(CheckLoop(body, Paths([s.keep], [s.flow]), s))
  {
    hide CheckLoop, PopScopes;
    var s0 := RegisterFlow(PushScopes(st), x, FRESH_LOCAL);
    var s := RegisterFlow(PushScopes(st), x, NO_FLOW);
    assert s0.flow[x := NO_FLOW] == s.flow && s0.diagnostics + [] == s.diagnostics;
    assert Check(Do(Assign, x), s0) == s;
    LoopEnds(body, Paths([s.keep], [s.flow]), s);
    var loop := Then(While(body), End);
    assert CheckAll(loop, s) == CheckLoop(body, Paths([s.keep], [s.flow]), s);
    assert CheckAll(Then(Do(Assign, x), loop), s0) == CheckAll(loop, s);
    assert CheckAll(Then(Do(Declare, x), Then(Do(Assign, x), loop)), PushScopes(st)) == CheckAll(loop, s);
  }

  /** It is covered where its loop is, and for its own variable where the body is. */
  lemma ForEachCovered(x: Id, body: Stmts, y: Id, k: Status, terms: Terms)
    ensures x != y ==> (Covered(ForEach(x, body), y, k, terms) <==> Covered(While(body), y, k, terms))
    ensures Covered(ForEach(x, body), x, Outside, terms) <==>
            CoveredAll(body, x, Inside(Plain), terms.Past(While(body), x, Inside(Plain)))
  {
    hide Covered, CoveredAll;
    if x != y { ForEachFrom(x, body, y, k, k, terms); }
    ForEachFrom(x, body, x, Outside, Inside(Plain), terms);
    WhileCovered(body, x, terms);
  }

  lemma ForEachFrom(x: Id, body: Stmts, y: Id, k: Status, k': Status, terms: Terms)
    requires k' == After(Do(Declare, x), y, k)
    ensures Covered(ForEach(x, body), y, k, terms) <==> Covered(While(body), y, k', terms)
  {
    hide CoveredAll;
    var loop := Then(While(body), End);
    var rest := Then(Do(Assign, x), loop);
    ForEachUnfolds(Do(Declare, x), rest, y, k, terms);
    ForEachUnfolds(Do(Assign, x), loop, y, k', terms);
    ForEachUnfolds(While(body), End, y, k', terms);
    assert Covered(Block(Then(Do(Declare, x), rest)), y, k, terms) <==>
           CoveredAll(Then(Do(Declare, x), rest), y, k, terms);
  }

  lemma WhileCovered(body: Stmts, x: Id, terms: Terms)
    ensures Covered(While(body), x, Inside(Plain), terms) <==>
            CoveredAll(body, x, Inside(Plain), terms.Past(While(body), x, Inside(Plain)))
  {
    hide CoveredAll, MentionsAll, ResumeAll;
  }

  lemma ForEachUnfolds(s: Stmt, tail: Stmts, x: Id, k: Status, terms: Terms)
    ensures CoveredAll(Then(s, tail), x, k, terms) <==>
            Covered(s, x, k, terms) && CoveredAll(tail, x, After(s, x, k), terms.Past(s, x, k))
    ensures tail.End? ==> (CoveredAll(Then(s, tail), x, k, terms) <==> Covered(s, x, k, terms))
    ensures s.Do? && !Does(s.op, Nulling) ==> Covered(s, x, k, terms) && terms.Past(s, x, k) == terms
  {
    hide Covered;
    if s.Do? { OpCovered(s, x, k, terms); }
  }

  lemma OpCovered(s: Stmt, x: Id, k: Status, terms: Terms)
    requires s.Do?
    ensures Covered(s, x, k, terms)
  {
  }

  // ---- Whole functions ----

  lemma FunctionQuiet(body: Stmts, returnsValue: bool)
    requires Accepted(body, returnsValue)
    ensures Quiet(START, CheckBlock(body, START))
  {
    hide CheckBlock;
    var st := START;
    var s1 := CheckBlock(body, st);
    BlockGrows(body, st);
    PopReports(ReportIf(returnsValue && !s1.terminated, s1, MissingReturn, NO_SYMBOL));
  }

  lemma FunctionGone(body: Stmts, returnsValue: bool, cs: seq<Choice>, x: Id, terms: Terms)
    requires Accepted(body, returnsValue) && ResolvedAll(body, x, Outside) && CoveredAll(body, x, Outside, terms)
    ensures Gone(RunFunction(body, cs), x, terms)
  {
    hide CheckBlock, RunBlock, ResolvedAll, CoveredAll;
    FunctionQuiet(body, returnsValue);
    var st := START;
    AbsentBlock(body, cs, EMPTY, st, x, terms);
  }

  /** The soundness theorem.  If the checker reports nothing, then on every run, for any
      number of loop turns, a covered local is never freed twice, dereferenced while null or
      freed, overwritten or left behind while it owns something, awaited twice, or read
      before it is assigned. */
  lemma AcceptedIsSafe(body: Stmts, returnsValue: bool, cs: seq<Choice>, x: Id, kind: FaultKind)
    requires Accepted(body, returnsValue) && ResolvedAll(body, x, Outside) && CoveredIn(body, x)
    ensures Fault(kind, x) !in RunFunction(body, cs).store.faults
  {
    FunctionGone(body, returnsValue, cs, x, Terms(false, false, true));
  }

  /** Calls that throw while a local owns something can do it one harm only: the exception
      leaves its scope and it is dropped.  It is still never freed twice, dereferenced null or
      freed, overwritten or awaited twice; and without try statements the run that dropped it
      ends with that exception. */
  lemma ThrowsOnlyDrop(body: Stmts, returnsValue: bool, cs: seq<Choice>, x: Id, kind: FaultKind, tries: bool)
    requires Accepted(body, returnsValue) && ResolvedAll(body, x, Outside) && CoveredButThrows(body, x, tries)
    ensures Fault(kind, x) in RunFunction(body, cs).store.faults ==>
              kind == Dropped && (tries || RunFunction(body, cs).outcome == Threw)
  {
    FunctionGone(body, returnsValue, cs, x, Terms(false, true, tries));
  }

  /** When every local is covered, an accepted function does nothing wrong, and a run that
      comes to its end, by whatever way, has freed every allocation and awaited every task. */
  lemma AcceptedReleasesAll(body: Stmts, returnsValue: bool, cs: seq<Choice>)
    requires Accepted(body, returnsValue) && ResolvedBody(body)
    requires forall x: Id :: CoveredIn(body, x)
    ensures var r := RunFunction(body, cs);
            r.store.faults == {} && (r.outcome != Cut ==> r.store.heap == {} && r.store.tasks == {})
  {
    hide CheckBlock, RunBlock, Accepted, CoveredAll;
    var r := RunFunction(body, cs);
    forall x: Id ensures Clean(r, x) {
      assert ResolvedAll(body, x, Outside) && CoveredIn(body, x);
      FunctionGone(body, returnsValue, cs, x, Terms(false, false, true));
    }
    assert forall f | f in r.store.faults :: Clean(r, f.x) && f == Fault(f.kind, f.x);
    assert r.store.faults == {};
    LedgerBlock(body, cs, EMPTY);
    if r.outcome != Cut {
      assert forall x: Id :: Clean(r, x) && x !in r.store.env;
    }
  }

  /** No trace of `x` is left. */
  ghost predicate Clean(q: Run, x: Id) { Safe(q.store, x, false) && (q.outcome != Cut ==> x !in q.store.env) }
}
