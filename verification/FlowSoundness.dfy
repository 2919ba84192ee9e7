/** One pass of the checker against every run: while nothing is reported, the tables stay
    right about a covered local, and no run does it harm. */
module FlowSoundness {
  import opened FlowSyntax
  import opened FlowState
  import opened FlowChecker
  import opened FlowFrame
  import opened FlowTracking
  import opened FlowFragment
  import opened FlowUntouched
  import opened FlowCoherence
  import opened FlowJoin
  import opened FlowDoom
  import opened FlowCells
  import opened FlowTermination
  import opened Runs

  /** How the exits of the innermost loop are known not to be doomed.
      Hot: no recorded value state is bad.  Cold: none is, or every recorded keep state is
      deleted.  Off: the exits do not matter for `x`. */
  datatype Watch = Hot | Cold | Off

  /** The local a proof follows: where it is, and how its loop exits are watched. */
  datatype Site = Site(x: Id, kind: Kind, lv: int, terms: Terms, watch: Watch, blind: bool)

  ghost predicate ExitsGood(st: State, e: Site) {
    |st.breakFlows| > 0 && |st.breakKeeps| > 0 ==>
      match e.watch
      case Off => true
      case Hot => CleanFlows(Last(st.breakFlows), e.x, e.kind)
      case Cold => CleanFlows(Last(st.breakFlows), e.x, e.kind) || AllDeleted(Last(st.breakKeeps), e.x)
  }

  ghost predicate CleanFlows(flows: seq<FlowMap>, x: Id, kind: Kind) {
    forall j | 0 <= j < |flows| :: x in flows[j] && !Bad(kind, flows[j][x])
  }

  /** No way out of the visited text is doomed. */
  ghost predicate Good(r: State, e: Site) {
    ExitsGood(r, e) && (!r.terminated ==> !Doomed(r, e.x, e.kind))
  }

  predicate WatchFits(st: State, e: Site, still: bool, continues: Resumes) {
    match e.watch
    case Hot => true
    case Cold =>
      && e.kind == RawOwner
      && (continues == Never || (continues == Early && e.x in st.keep && st.keep[e.x] == Deleted))
    case Off =>
      || e.lv >= Depth(st) || !Owned(Inside(e.kind))
      || (e.kind == RawOwner && still && e.x in st.keep && st.keep[e.x] == Deleted)
  }

  /** Before a visit and the run it is compared with. */
  ghost predicate Before(st: State, m: Store, e: Site) {
    var located := Located(st, e.x, Inside(e.kind), e.lv);
    var coherent := Coherent(st, e.x, e.kind, e.terms.nulled);
    var right := Right(st.keep, st.flow, e.x, e.kind, m, e.blind);
    var unharmed := Distinct(m) && Safe(m, e.x, e.terms.Earlier());
    located && !st.terminated && coherent && right && unharmed
  }

  /** Where a run of the visited text can leave the local. */
  ghost predicate Outcomes(st: State, r: State, q: Run, e: Site, continues: Resumes) {
    match q.outcome
    case Normal => !r.terminated && Right(r.keep, r.flow, e.x, e.kind, q.store, e.blind)
    case Broke =>
      && st.finallyDepth == 0 && |r.breakFlows| > 0 && |r.breakKeeps| > 0
      && (e.lv >= Depth(st) ==> !Holds(q.store, e.x))
      && RightExit(Last(r.breakFlows), q.store, e)
      && (e.kind == RawOwner ==> RightKeep(Last(r.breakKeeps), q.store, e))
    case Continued =>
      && st.finallyDepth == 0 && |r.breakFlows| > 0 && continues != Never
      && (e.lv >= Depth(st) ==> !Holds(q.store, e.x))
      && RightExit(Last(r.breakFlows), q.store, e)
    case Returned => st.finallyDepth == 0 && !Holds(q.store, e.x)
    case Threw => e.terms.throws || !Holds(q.store, e.x)
    case Cut => true
  }

  ghost predicate RightExit(flows: seq<FlowMap>, m: Store, e: Site) {
    exists j :: 0 <= j < |flows| && e.x in flows[j] && FlowHolds(e.kind, flows[j][e.x], m, e.x, e.blind)
  }

  ghost predicate RightKeep(keeps: seq<KeepMap>, m: Store, e: Site) {
    exists i :: 0 <= i < |keeps| && e.x in keeps[i] && KeepHolds(keeps[i][e.x], m, e.x)
  }

  /** What no run of the visited text changes. */
  ghost predicate Unmoved(st: State, m: Store, n: Store, e: Site, still: bool, untouched: bool) {
    && Distinct(n) && Safe(n, e.x, e.terms.Earlier()) && Shaped(e.kind, n, e.x)
    && (e.kind == Plain && Shaped(Plain, m, e.x) && m.env[e.x].written ==> n.env[e.x].written)
    && (Owned(Inside(e.kind)) && e.x in m.env && Frozen(st, e, still, untouched) ==> Unchanged(m, n, e.x))
  }

  predicate Frozen(st: State, e: Site, still: bool, untouched: bool) {
    untouched || (e.kind == RawOwner && still && e.x in st.keep && st.keep[e.x] == Deleted)
  }

  ghost predicate Sound(st: State, r: State, m: Store, q: Run, e: Site,
                        still: bool, untouched: bool, continues: Resumes) {
    var outcomes := Outcomes(st, r, q, e, continues);
    var unmoved := Unmoved(st, m, q.store, e, still, untouched);
    outcomes && unmoved && Resumed(st, m, q, e, continues)
  }

  /** A run that continues the loop before a deleted owner could be given a value has not
      changed it. */
  predicate Resumed(st: State, m: Store, q: Run, e: Site, continues: Resumes) {
    q.outcome == Continued && continues == Early ==>
      (e.kind == RawOwner && e.x in st.keep && st.keep[e.x] == Deleted && e.x in m.env ==> Unchanged(m, q.store, e.x))
  }

  /** The same local after text that may have set it to null. */
  function Past(e: Site, nulls: bool): Site { e.(terms := e.terms.(nulled := e.terms.nulled || nulls)) }

  lemma PastCoherent(keep: KeepMap, flow: FlowMap, e: Site, nulls: bool)
    requires PairOk(keep, flow, e.x, e.kind, e.terms.nulled)
    ensures PairOk(keep, flow, e.x, e.kind, Past(e, nulls).terms.nulled)
  {
  }

  lemma PastState(st: State, e: Site, nulls: bool)
    requires Coherent(st, e.x, e.kind, e.terms.nulled)
    ensures Coherent(st, e.x, e.kind, Past(e, nulls).terms.nulled)
  {
    PastCoherent(st.keep, st.flow, e, nulls);
  }

  lemma PastBefore(st: State, m: Store, e: Site, nulls: bool)
    requires Before(st, m, e)
    ensures Before(st, m, Past(e, nulls))
  {
    PastCoherent(st.keep, st.flow, e, nulls);
  }

  /** What a run does to the local does not depend on whether null is reckoned with. */
  lemma PastSound(st: State, r: State, m: Store, q: Run, e: Site, nulls: bool,
                  still: bool, untouched: bool, continues: Resumes)
    ensures Sound(st, r, m, q, Past(e, nulls), still, untouched, continues) <==>
            Sound(st, r, m, q, e, still, untouched, continues)
  {
    hide Outcomes, Unmoved;
    PastOutcomes(st, r, q, e, nulls, continues);
    PastUnmoved(st, m, q.store, e, nulls, still, untouched);
  }

  lemma PastOutcomes(st: State, r: State, q: Run, e: Site, nulls: bool, continues: Resumes)
    ensures Outcomes(st, r, q, Past(e, nulls), continues) <==> Outcomes(st, r, q, e, continues)
  {
    hide Right, RightExit, RightKeep;
    if |r.breakFlows| > 0 { PastExit(Last(r.breakFlows), q.store, e, nulls); }
    if |r.breakKeeps| > 0 { PastKeep(Last(r.breakKeeps), q.store, e, nulls); }
  }

  lemma PastUnmoved(st: State, m: Store, n: Store, e: Site, nulls: bool, still: bool, untouched: bool)
    ensures Unmoved(st, m, n, Past(e, nulls), still, untouched) <==> Unmoved(st, m, n, e, still, untouched)
  {
    hide Distinct, Safe, Shaped, Unchanged;
  }

  lemma PastExit(flows: seq<FlowMap>, m: Store, e: Site, nulls: bool)
    ensures RightExit(flows, m, Past(e, nulls)) <==> RightExit(flows, m, e)
  {
  }

  lemma PastKeep(keeps: seq<KeepMap>, m: Store, e: Site, nulls: bool)
    ensures RightKeep(keeps, m, Past(e, nulls)) <==> RightKeep(keeps, m, e)
  {
  }

  // ---- Moving between states ----

  /** Later exits include earlier ones. */
  lemma GoodEarlier(a: State, b: State, e: Site)
    requires Ready(a) && Ready(b) && Frame(a, b) && ExitsGood(b, e)
    ensures ExitsGood(a, e)
  {
    if |a.breakFlows| > 0 {
      assert forall j | 0 <= j < |Last(a.breakFlows)| :: Last(a.breakFlows)[j] == Last(b.breakFlows)[j];
      assert forall j | 0 <= j < |Last(a.breakKeeps)| :: Last(a.breakKeeps)[j] == Last(b.breakKeeps)[j];
    }
  }

  lemma RightExitLater(a: State, b: State, m: Store, e: Site)
    requires Ready(a) && Ready(b) && Frame(a, b) && |a.breakFlows| > 0
    ensures RightExit(Last(a.breakFlows), m, e) ==> RightExit(Last(b.breakFlows), m, e)
    ensures RightKeep(Last(a.breakKeeps), m, e) ==> RightKeep(Last(b.breakKeeps), m, e)
  {
    assert forall j | 0 <= j < |Last(a.breakFlows)| :: Last(a.breakFlows)[j] == Last(b.breakFlows)[j];
    assert forall j | 0 <= j < |Last(a.breakKeeps)| :: Last(a.breakKeeps)[j] == Last(b.breakKeeps)[j];
  }

  /** A run that left early is not affected by what is visited later. */
  lemma OutcomesLater(st: State, a: State, b: State, q: Run, e: Site, m: Resumes, n: Resumes)
    requires Ready(a) && Ready(b) && Frame(a, b) && q.outcome != Normal
    requires Outcomes(st, a, q, e, m)
    ensures Outcomes(st, b, q, e, Most(m, n))
  {
    if q.outcome == Broke || q.outcome == Continued { RightExitLater(a, b, q.store, e); }
  }

  /** Continue from a middle state that has the same loop depth. */
  lemma OutcomesFrom(a: State, b: State, r: State, q: Run, e: Site, m: Resumes, n: Resumes)
    requires Outcomes(b, r, q, e, n)
    requires a.finallyDepth == b.finallyDepth && a.loopDepths == b.loopDepths
    ensures Outcomes(a, r, q, e, Most(m, n))
  {
  }

  lemma UnmovedThen(a: State, b: State, k: Store, m: Store, n: Store, e: Site,
                    s1: bool, s2: bool, u1: bool, u2: bool)
    requires Unmoved(a, k, m, e, s1, u1) && Unmoved(b, m, n, e, s2, u2)
    requires e.kind == RawOwner && s1 && e.x in a.keep && a.keep[e.x] == Deleted ==>
               e.x in b.keep && b.keep[e.x] == Deleted
    ensures Unmoved(a, k, n, e, s1 && s2, u1 && u2)
  {
  }

  lemma UnmovedWeaker(a: State, m: Store, n: Store, e: Site, s1: bool, u1: bool, s2: bool, u2: bool)
    requires Unmoved(a, m, n, e, s1, u1) && (s2 ==> s1) && (u2 ==> u1)
    ensures Unmoved(a, m, n, e, s2, u2)
  {
  }

  // ---- What must hold to compare a visit with a run ----

  predicate Readable(e: Site, looks: bool) { e.blind ==> e.kind == Plain && !looks }

  ghost predicate Ask(st: State, r: State, m: Store, e: Site, still: bool, continues: Resumes, looks: bool) {
    var before, good, fits := Before(st, m, e), Good(r, e), WatchFits(st, e, still, continues);
    before && Quiet(st, r) && good && fits && Readable(e, looks)
  }

  /** A state after which nothing is reported and no exit is doomed is not doomed itself. */
  lemma MidGood(tail: Stmts, st: State, e: Site)
    requires Located(st, e.x, Inside(e.kind), e.lv) && !st.terminated
    requires ResolvedAll(tail, e.x, Inside(e.kind)) && CoveredAll(tail, e.x, Inside(e.kind), e.terms)
    requires Quiet(st, CheckAll(tail, st)) && Good(CheckAll(tail, st), e)
    requires WatchFits(st, e, !MentionsAll(tail, e.x, Assigning), ResumeAll(tail, e.x))
    ensures Good(st, e)
  {
    var r := CheckAll(tail, st);
    AllGrows(tail, st);
    GoodEarlier(st, r, e);
    if Doomed(st, e.x, e.kind) {
      CoveredPassesAll(tail, e.x, e.kind, e.terms);
      AllDoom(tail, st, e.x, e.kind, e.lv);
      ResumeIffAll(tail, e.x);
      if r.terminated { NewExitsShow(st, r, e); }
    }
  }

  /** New exits that are all bad contradict exits that are good. */
  lemma NewExitsShow(st: State, r: State, e: Site)
    requires Ready(st) && Ready(r) && Frame(st, r) && e.watch != Off
    requires NewFlows(st, r) != [] && BadFlows(NewFlows(st, r), e.x, e.kind)
    requires e.watch == Cold ==> e.kind == RawOwner && NewKeeps(st, r) != [] && OwedKeeps(NewKeeps(st, r), e.x, e.kind)
    ensures !ExitsGood(r, e)
  {
    var j := |Last(st.breakFlows)|;
    assert Last(r.breakFlows)[j] == NewFlows(st, r)[0];
    if e.watch == Cold {
      var i := |Last(st.breakKeeps)|;
      assert Last(r.breakKeeps)[i] == NewKeeps(st, r)[0];
    }
  }

  // ---- The induction ----

  lemma {:induction false} SoundStmt(s: Stmt, cs: seq<Choice>, m: Store, st: State, e: Site)
    requires Resolved(s, e.x, Inside(e.kind)) && Covered(s, e.x, Inside(e.kind), e.terms)
    requires Ask(st, Check(s, st), m, e, !Mentions(s, e.x, Assigning), Resume(s, e.x), Mentions(s, e.x, Reading))
    ensures Sound(st, Check(s, st), m, RunStmt(s, cs, m), e,
                  !Mentions(s, e.x, Assigning), !Mentions(s, e.x, Changing), Resume(s, e.x))
    decreases |cs|, s, 2
  {
    hide Right, Outcomes, Unmoved, Located, Coherent, CheckBlock, CheckIf, CheckSwitch, CheckTry, CheckOp, CheckLoop,
         CheckLoopExit, CheckFunctionExit, RunBlock, RunLoop, RunAgain, RunTry, MentionsAll, MentionsArms,
         MentionsElse, ResumeAll, ResumeArms, ResumeElse, ResolvedAll, CoveredAll;
    match s
    case Do(op, y) => SoundOp(op, y, cs, m, st, e);
    case Call(_) => SoundCall(RunStmt(s, cs, m), m, st, e);
    case Block(body) => SoundBlock(body, cs, m, st, e);
    case If(_, _) => SoundIf(s, cs, m, st, e);
    case Switch(_, _, _, _) => SoundSwitch(s, cs, m, st, e);
    case While(body) => SoundWhile(body, cs, m, st, e);
    case DoWhile(body) => SoundDoWhile(body, cs, m, st, e);
    case Try(_, _, _) => SoundTry(s, cs, m, st, e);
    case Throw | Return => SoundFunctionExit(s, cs, m, st, e);
    case Break => SoundLoopExit(true, cs, m, st, e);
    case Continue => SoundLoopExit(false, cs, m, st, e);
  }

  /** A call does nothing to `x`, and throws only where the terms allow it or no owner or task is in scope. */
  lemma SoundCall(q: Run, m: Store, st: State, e: Site)
    requires Before(st, m, e) && q.store == m
    requires q.outcome == Normal || q.outcome == Cut
             || (q.outcome == Threw && (!Owned(Inside(e.kind)) || e.terms.throws))
    ensures Sound(st, st, m, q, e, true, true, Never)
  {
  }

  lemma SoundFunctionExit(s: Stmt, cs: seq<Choice>, m: Store, st: State, e: Site)
    requires Before(st, m, e) && Quiet(st, CheckFunctionExit(st)) && (s.Throw? || s.Return?)
    ensures Sound(st, CheckFunctionExit(st), m, RunStmt(s, cs, m), e, true, true, Never)
  {
    QuietFunctionExit(st, e.x, e.kind, e.lv);
    ReleasedCell(st, e.x, e.kind, e.terms.nulled, m, e.blind);
  }

  lemma SoundOp(op: Op, y: Id, cs: seq<Choice>, m: Store, st: State, e: Site)
    requires Resolved(Do(op, y), e.x, Inside(e.kind))
    requires Before(st, m, e) && Quiet(st, CheckOp(op, y, st)) && Readable(e, Mentions(Do(op, y), e.x, Reading))
    ensures Sound(st, CheckOp(op, y, st), m, Run(Normal, cs, Exec(op, y, m)), e,
                  !Mentions(Do(op, y), e.x, Assigning), !Mentions(Do(op, y), e.x, Changing), Never)
  {
    hide Only, Exec, CheckOp, Sound, Coherent, Right, Distinct, Safe;
    if y == e.x { SoundOwnOp(op, cs, m, st, e); } else { SoundOtherOp(op, y, cs, m, st, e); }
  }

  lemma SoundOwnOp(op: Op, cs: seq<Choice>, m: Store, st: State, e: Site)
    requires e.kind == KindOf(op) && !Declares(op)
    requires Before(st, m, e) && Quiet(st, CheckOp(op, e.x, st)) && Readable(e, Does(op, Reading))
    ensures Sound(st, CheckOp(op, e.x, st), m, Run(Normal, cs, Exec(op, e.x, m)), e,
                  !Does(op, Assigning), !Does(op, Changing), Never)
  {
    hide Only, Coherent, Distinct, Safe, Exec, CheckOp, Unchanged;
    OpContinues(op, e.x, st);
    ExecDistinct(op, e.x, m);
    ExecOwn(op, st, e.x, e.kind, e.terms.nulled, m, e.blind, e.terms.Earlier());
  }

  lemma SoundOtherOp(op: Op, y: Id, cs: seq<Choice>, m: Store, st: State, e: Site)
    requires Before(st, m, e) && y != e.x
    ensures Sound(st, CheckOp(op, y, st), m, Run(Normal, cs, Exec(op, y, m)), e, true, true, Never)
  {
    hide Only, Coherent, Distinct, Exec, CheckOp;
    OpContinues(op, y, st);
    ExecDistinct(op, y, m);
    ExecOther(op, y, m, e.x);
    CheckOther(op, y, st, e.x);
  }

  lemma SoundLoopExit(isBreak: bool, cs: seq<Choice>, m: Store, st: State, e: Site)
    requires Before(st, m, e) && Quiet(st, CheckLoopExit(isBreak, st))
    ensures Sound(st, CheckLoopExit(isBreak, st), m, Run(if isBreak then Broke else Continued, cs, m), e,
                  true, true, if isBreak then Never else Early)
  {
    QuietLoopExit(isBreak, st, e.x, e.kind, e.lv);
    LoopExitRecords(isBreak, st);
    var r := CheckLoopExit(isBreak, st);
    assert Last(r.breakFlows)[|Last(st.breakFlows)|] == st.flow;
    assert isBreak && e.kind == RawOwner ==> Last(r.breakKeeps)[|Last(st.breakKeeps)|] == st.keep;
    if e.lv >= Depth(st) { ReleasedCell(st, e.x, e.kind, e.terms.nulled, m, e.blind); }
  }

  lemma {:induction false} SoundAll(ss: Stmts, cs: seq<Choice>, m: Store, st: State, e: Site)
    requires ResolvedAll(ss, e.x, Inside(e.kind)) && CoveredAll(ss, e.x, Inside(e.kind), e.terms)
    requires Ask(st, CheckAll(ss, st), m, e, !MentionsAll(ss, e.x, Assigning), ResumeAll(ss, e.x),
                 MentionsAll(ss, e.x, Reading))
    ensures Sound(st, CheckAll(ss, st), m, RunAll(ss, cs, m), e,
                  !MentionsAll(ss, e.x, Assigning), !MentionsAll(ss, e.x, Changing), ResumeAll(ss, e.x))
    decreases |cs|, ss, 1
  {
    hide Check, RunStmt, Coherent, Right, Outcomes, Unmoved, Located, Mentions, Resolved, Covered, Resume;
    match ss
    case End => SoundNothing(m, st, cs, e);
    case Then(s, tail) =>
      ThenUnfolds(s, tail, e);
      ThenAsks(s, tail, m, st, e);
      SoundThen(ss, s, tail, cs, m, st, Check(s, st), e);
  }

  lemma SoundNothing(m: Store, st: State, cs: seq<Choice>, e: Site)
    requires Before(st, m, e)
    ensures Sound(st, st, m, Run(Normal, cs, m), e, true, true, Never)
  {
  }

  /** The conditions on a list, for its head and its tail. */
  lemma ThenUnfolds(s: Stmt, tail: Stmts, e: Site)
    requires ResolvedAll(Then(s, tail), e.x, Inside(e.kind)) && CoveredAll(Then(s, tail), e.x, Inside(e.kind), e.terms)
    ensures Resolved(s, e.x, Inside(e.kind)) && Covered(s, e.x, Inside(e.kind), e.terms)
    ensures ResolvedAll(tail, e.x, Inside(e.kind))
    ensures CoveredAll(tail, e.x, Inside(e.kind), Past(e, Mentions(s, e.x, Nulling)).terms)
  {
    hide Mentions, Covered;
    StaysInside(s, e.x, e.kind);
  }

  lemma ThenAsks(s: Stmt, tail: Stmts, m: Store, st: State, e: Site)
    requires Resolved(s, e.x, Inside(e.kind)) && Covered(s, e.x, Inside(e.kind), e.terms)
    requires ResolvedAll(tail, e.x, Inside(e.kind))
    requires CoveredAll(tail, e.x, Inside(e.kind), Past(e, Mentions(s, e.x, Nulling)).terms)
    requires Ask(st, CheckAll(Then(s, tail), st), m, e, !MentionsAll(Then(s, tail), e.x, Assigning),
                 ResumeAll(Then(s, tail), e.x), MentionsAll(Then(s, tail), e.x, Reading))
    ensures var s1 := Check(s, st);
            && Ready(st) && Ready(s1) && Frame(st, s1)
            && Ask(st, s1, m, e, !Mentions(s, e.x, Assigning), Resume(s, e.x), Mentions(s, e.x, Reading))
            && (!s1.terminated && e.kind == RawOwner && !Mentions(s, e.x, Assigning) ==>
                  e.x in st.keep && st.keep[e.x] == Deleted ==> e.x in s1.keep && s1.keep[e.x] == Deleted)
            && (!s1.terminated ==> TailAsks(tail, s1, e, Mentions(s, e.x, Nulling)))
  {
    hide Check, Coherent, Right, Mentions, Resolved, Covered, Resume, ExitsGood, Doomed, TopGrows, Only, Distinct, Safe;
    var s1 := Check(s, st);
    CheckGrows(s, st);
    StmtKeeps(s, st, e);
    WatchFirst(st, e, Mentions(s, e.x, Assigning), !MentionsAll(Then(s, tail), e.x, Assigning), Resume(s, e.x),
               ResumeAll(tail, e.x));
    if !s1.terminated {
      AllGrows(tail, s1);
      QuietSplit(st, s1, CheckAll(tail, s1));
      WatchLater(st, s1, e, Mentions(s, e.x, Assigning), !MentionsAll(Then(s, tail), e.x, Assigning),
                 !MentionsAll(tail, e.x, Assigning), Resume(s, e.x), ResumeAll(tail, e.x));
      PastGood(s1, CheckAll(tail, s1), e, Mentions(s, e.x, Nulling), !MentionsAll(tail, e.x, Assigning),
               ResumeAll(tail, e.x));
      MidGood(tail, s1, Past(e, Mentions(s, e.x, Nulling)));
      PastGood(s1, s1, e, Mentions(s, e.x, Nulling), true, Never);
    }
  }

  /** What the tail of a list is asked for, once its head is walked. */
  ghost predicate TailAsks(tail: Stmts, s1: State, e: Site, nulls: bool) {
    var r, located := CheckAll(tail, s1), Located(s1, e.x, Inside(e.kind), e.lv);
    && located && Coherent(s1, e.x, e.kind, Past(e, nulls).terms.nulled)
    && Quiet(s1, r) && Good(r, e) && Ready(r) && Frame(s1, r)
    && WatchFits(s1, e, !MentionsAll(tail, e.x, Assigning), ResumeAll(tail, e.x))
    && Readable(e, MentionsAll(tail, e.x, Reading))
  }

  lemma WatchFirst(st: State, e: Site, assigns: bool, still: bool, c1: Resumes, c2: Resumes)
    requires WatchFits(st, e, still, InTurn(c1, assigns, c2)) && (still ==> !assigns)
    ensures WatchFits(st, e, !assigns, c1)
  {
  }

  /** A statement, then the rest of the list. */
  lemma {:induction false} SoundThen(ss: Stmts, s: Stmt, tail: Stmts, cs: seq<Choice>, m: Store, st: State, s1: State,
                                     e: Site)
    requires ss == Then(s, tail)
    requires Resolved(s, e.x, Inside(e.kind)) && Covered(s, e.x, Inside(e.kind), e.terms)
    requires ResolvedAll(tail, e.x, Inside(e.kind))
    requires CoveredAll(tail, e.x, Inside(e.kind), Past(e, Mentions(s, e.x, Nulling)).terms)
    requires s1 == Check(s, st) && Ready(st) && Ready(s1) && Frame(st, s1)
    requires e.kind == RawOwner && !Mentions(s, e.x, Assigning) && e.x in st.keep && st.keep[e.x] == Deleted
             && !s1.terminated ==>
               e.x in s1.keep && s1.keep[e.x] == Deleted
    requires Ask(st, s1, m, e, !Mentions(s, e.x, Assigning), Resume(s, e.x), Mentions(s, e.x, Reading))
    requires !s1.terminated ==> TailAsks(tail, s1, e, Mentions(s, e.x, Nulling))
    ensures Sound(st, CheckAll(ss, st), m, RunAll(ss, cs, m), e,
                  !Mentions(s, e.x, Assigning) && !MentionsAll(tail, e.x, Assigning),
                  !Mentions(s, e.x, Changing) && !MentionsAll(tail, e.x, Changing),
                      InTurn(Resume(s, e.x), Mentions(s, e.x, Assigning), ResumeAll(tail, e.x)))
    decreases |cs|, ss, 0
  {
    hide Check, RunStmt, Located, Coherent, Right, Outcomes, Unmoved, Mentions, Resolved, Covered, Resume,
         MentionsAll, ResolvedAll, CoveredAll, ResumeAll;
    var q1 := RunStmt(s, cs, m);
    SoundStmt(s, cs, m, st, e);
    if s1.terminated { EndsEarly(st, s1, q1, e, Resume(s, e.x)); }
    if q1.outcome == Normal {
      var e' := Past(e, Mentions(s, e.x, Nulling));
      NormalBefore(st, s1, m, q1, e, Mentions(s, e.x, Nulling), Resume(s, e.x), !Mentions(s, e.x, Assigning),
                   !Mentions(s, e.x, Changing));
      PastGood(s1, CheckAll(tail, s1), e, Mentions(s, e.x, Nulling), !MentionsAll(tail, e.x, Assigning),
               ResumeAll(tail, e.x));
      SoundAll(tail, q1.rest, q1.store, s1, e');
      PastSound(s1, CheckAll(tail, s1), q1.store, RunAll(tail, q1.rest, q1.store), e, Mentions(s, e.x, Nulling),
                !MentionsAll(tail, e.x, Assigning), !MentionsAll(tail, e.x, Changing), ResumeAll(tail, e.x));
    }
    SoundSequence(st, s1, CheckAll(ss, st), m, q1, RunAll(ss, cs, m), e,
                  !Mentions(s, e.x, Assigning), !Mentions(s, e.x, Changing), Resume(s, e.x),
                  !MentionsAll(tail, e.x, Assigning), !MentionsAll(tail, e.x, Changing), ResumeAll(tail, e.x));
  }

  lemma SoundSequence(st: State, s1: State, r: State, m: Store, q1: Run, q: Run, e: Site,
                      still: bool, untouched: bool, continues: Resumes, still': bool, untouched': bool,
                          continues': Resumes)
    requires Ready(s1) && Ready(r) && Frame(st, s1) && Frame(s1, r)
    requires Sound(st, s1, m, q1, e, still, untouched, continues)
    requires if q1.outcome == Normal then Sound(s1, r, q1.store, q, e, still', untouched', continues') else q == q1
    requires e.kind == RawOwner && still && e.x in st.keep && st.keep[e.x] == Deleted && !s1.terminated ==>
               e.x in s1.keep && s1.keep[e.x] == Deleted
    ensures Sound(st, r, m, q, e, still && still', untouched && untouched', InTurn(continues, !still, continues'))
  {
    if q1.outcome == Normal {
      hide Right;
      OutcomesFrom(st, s1, r, q, e, continues, continues');
      UnmovedThen(st, s1, m, q1.store, q.store, e, still, still', untouched, untouched');
    } else {
      hide Right;
      OutcomesLater(st, s1, r, q1, e, continues, continues');
      UnmovedWeaker(st, m, q1.store, e, still, untouched, still && still', untouched && untouched');
    }
  }

  lemma EndsEarly(st: State, r: State, q: Run, e: Site, continues: Resumes)
    requires r.terminated && Outcomes(st, r, q, e, continues)
    ensures q.outcome != Normal
  {
  }

  lemma NormalBefore(st: State, r: State, m: Store, q: Run, e: Site, nulls: bool, continues: Resumes, still: bool,
                     untouched: bool)
    requires q.outcome == Normal && Sound(st, r, m, q, e, still, untouched, continues)
    requires Located(r, e.x, Inside(e.kind), e.lv) && Coherent(r, e.x, e.kind, Past(e, nulls).terms.nulled)
    ensures Before(r, q.store, Past(e, nulls))
  {
  }

  lemma PastGood(st: State, r: State, e: Site, nulls: bool, still: bool, continues: Resumes)
    ensures Good(r, Past(e, nulls)) <==> Good(r, e)
    ensures WatchFits(st, Past(e, nulls), still, continues) <==> WatchFits(st, e, still, continues)
  {
  }

  lemma StmtKeeps(s: Stmt, st: State, e: Site)
    requires Located(st, e.x, Inside(e.kind), e.lv) && Coherent(st, e.x, e.kind, e.terms.nulled)
    requires Resolved(s, e.x, Inside(e.kind)) && Covered(s, e.x, Inside(e.kind), e.terms)
    ensures var s1 := Check(s, st);
            && Located(s1, e.x, Inside(e.kind), e.lv)
            && Coherent(s1, e.x, e.kind, Past(e, Mentions(s, e.x, Nulling)).terms.nulled)
            && (!Mentions(s, e.x, Assigning) && e.kind == RawOwner && st.keep[e.x] == Deleted ==>
                  s1.keep[e.x] == Deleted)
  {
    hide Check, Mentions, Covered;
    CheckTracks(s, st, e.x, Inside(e.kind), e.lv);
    PastCoherent(st.keep, st.flow, e, Mentions(s, e.x, Nulling));
    StmtSteady(s, e);
    CheckSteps(s, st, e.x, e.kind, e.lv, Past(e, Mentions(s, e.x, Nulling)).terms.nulled);
  }

  lemma StmtSteady(s: Stmt, e: Site)
    requires Resolved(s, e.x, Inside(e.kind)) && Covered(s, e.x, Inside(e.kind), e.terms)
    ensures Steady(s, e.x, e.kind, Past(e, Mentions(s, e.x, Nulling)).terms.nulled)
  {
    hide Mentions, Covered, BottomsLook;
    if e.kind == RawOwner { CoveredPasses(s, e.x, e.kind, e.terms); }
  }

  /** The watch still fits what is left of the text. */
  lemma WatchLater(a: State, b: State, e: Site, assigns: bool, s1: bool, s2: bool, c1: Resumes, c2: Resumes)
    requires WatchFits(a, e, s1, InTurn(c1, assigns, c2)) && a.loopDepths == b.loopDepths && (s1 ==> s2 && !assigns)
    requires e.kind == RawOwner && !assigns && e.x in a.keep && a.keep[e.x] == Deleted ==>
               e.x in b.keep && b.keep[e.x] == Deleted
    ensures WatchFits(b, e, s2, c2)
  {
  }

  lemma {:induction false} NotDeclared(ss: Stmts, x: Id, kind: Kind)
    requires ResolvedAll(ss, x, Inside(kind))
    ensures x !in Decls(ss)
  {
    if ss.Then? { NotDeclared(ss.tail, x, kind); }
  }

  /** Other locals going out of scope leave `x` alone. */
  lemma LeaveOther(ids: set<Id>, m: Store, x: Id)
    requires x !in ids && Distinct(m)
    ensures var n := Leave(ids, m);
            && Distinct(n) && (x in n.env <==> x in m.env) && (x in m.env ==> n.env[x] == m.env[x])
            && (Holds(n, x) <==> Holds(m, x)) && NoNewFaults(m, n, x)
  {
  }

  lemma {:induction false} SoundBlock(body: Stmts, cs: seq<Choice>, m: Store, st: State, e: Site)
    requires ResolvedAll(body, e.x, Inside(e.kind)) && CoveredAll(body, e.x, Inside(e.kind), e.terms)
    requires Ask(st, CheckBlock(body, st), m, e, !MentionsAll(body, e.x, Assigning), ResumeAll(body, e.x),
                 MentionsAll(body, e.x, Reading))
    ensures Sound(st, CheckBlock(body, st), m, RunBlock(body, cs, m), e,
                  !MentionsAll(body, e.x, Assigning), !MentionsAll(body, e.x, Changing), ResumeAll(body, e.x))
    decreases |cs|, body, 2
  {
    BlockAsks(body, st, m, e, !MentionsAll(body, e.x, Assigning), ResumeAll(body, e.x),
              MentionsAll(body, e.x, Reading));
    var s0 := PushScopes(st);
    hide Ask, Right, Outcomes, Unmoved, CheckAll, RunAll, MentionsAll, ResumeAll, ResolvedAll, CoveredAll, PopScopes;
    SoundAll(body, cs, m, s0, e);
    NotDeclared(body, e.x, e.kind);
    LeaveSound(st, s0, CheckAll(body, s0), PopScopes(CheckAll(body, s0)), m, m, RunAll(body, cs, m), Decls(body), e,
               !MentionsAll(body, e.x, Assigning), !MentionsAll(body, e.x, Changing), ResumeAll(body, e.x));
  }

  lemma BlockAsks(body: Stmts, st: State, m: Store, e: Site, still: bool, continues: Resumes, looks: bool)
    requires Ask(st, CheckBlock(body, st), m, e, still, continues, looks) && ResolvedAll(body, e.x, Inside(e.kind))
    ensures Ask(PushScopes(st), CheckAll(body, PushScopes(st)), m, e, still, continues, looks)
    ensures SameCell(m, m, e.x)
    ensures var s1 := CheckAll(body, PushScopes(st));
            var r := PopScopes(s1);
            && e.x in s1.flow && e.x in r.flow && r.flow[e.x] == s1.flow[e.x]
            && (e.kind == RawOwner ==> e.x in s1.keep && e.x in r.keep && r.keep[e.x] == s1.keep[e.x])
            && r.breakFlows == s1.breakFlows && r.breakKeeps == s1.breakKeeps && r.terminated == s1.terminated
  {
    hide Right, CheckAll, ResolvedAll, Only, Distinct, Safe, TopGrows, PairOk, PopScopes;
    var s0 := PushScopes(st);
    var s1 := CheckAll(body, s0);
    assert Ready(s0);
    AllGrows(body, s0);
    PopQuiet(s1);
    QuietSplit(s0, s1, PopScopes(s1));
    LocatedPush(st, e.x, Inside(e.kind), e.lv);
    BlockPops(body, st, e);
  }

  /** Leaving the block keeps the entries of `x`. */
  lemma BlockPops(body: Stmts, st: State, e: Site)
    requires Located(st, e.x, Inside(e.kind), e.lv) && ResolvedAll(body, e.x, Inside(e.kind))
    ensures var s1 := CheckAll(body, PushScopes(st));
            var r := PopScopes(s1);
            && e.x in s1.flow && e.x in r.flow && r.flow[e.x] == s1.flow[e.x]
            && (e.kind == RawOwner ==> e.x in s1.keep && e.x in r.keep && r.keep[e.x] == s1.keep[e.x])
  {
    hide CheckAll, ResolvedAll;
    LocatedPush(st, e.x, Inside(e.kind), e.lv);
    AllGrows(body, PushScopes(st));
    AllTracks(body, PushScopes(st), e.x, Inside(e.kind), e.lv);
    PopKeeps(CheckAll(body, PushScopes(st)), e.x, e.kind, e.lv);
  }

  /** The cell of `x` and what is known of it. */
  ghost predicate SameCell(m: Store, n: Store, x: Id) {
    && (x in n.env <==> x in m.env) && (x in m.env ==> n.env[x] == m.env[x])
    && (Holds(n, x) <==> Holds(m, x)) && NoNewFaults(m, n, x) && Distinct(n)
  }

  lemma SameCellOutcomes(st: State, r: State, q: Run, n: Store, e: Site, continues: Resumes)
    requires Outcomes(st, r, q, e, continues) && SameCell(q.store, n, e.x)
    ensures Outcomes(st, r, q.(store := n), e, continues)
  {
    if q.outcome == Broke || q.outcome == Continued {
      assert forall f: Flow :: FlowHolds(e.kind, f, q.store, e.x, e.blind) ==> FlowHolds(e.kind, f, n, e.x, e.blind);
      assert forall k: Keep :: KeepHolds(k, q.store, e.x) ==> KeepHolds(k, n, e.x);
    }
  }

  /** The locals of a block or a catch clause come and go around it. */
  lemma LeaveSound(st: State, s0: State, s1: State, r: State, k: Store, m: Store, q: Run, ids: set<Id>, e: Site,
                   still: bool, untouched: bool, continues: Resumes)
    requires s0.keep == st.keep && s0.loopDepths == st.loopDepths && s0.finallyDepth == st.finallyDepth
    requires SameCell(k, m, e.x) && Sound(s0, s1, m, q, e, still, untouched, continues)
    requires e.x !in ids
    requires e.x in s1.flow && e.x in r.flow && r.flow[e.x] == s1.flow[e.x]
    requires e.kind == RawOwner ==> e.x in s1.keep && e.x in r.keep && r.keep[e.x] == s1.keep[e.x]
    requires r.breakFlows == s1.breakFlows && r.breakKeeps == s1.breakKeeps && r.terminated == s1.terminated
    ensures Sound(st, r, k, LeaveUnlessCut(ids, q), e, still, untouched, continues)
  {
    hide Outcomes, Unmoved, Leave, Resumed;
    var n := LeaveUnlessCut(ids, q);
    var l := if q.outcome == Cut then q.store else Leave(ids, q.store);
    UnmovedDistinct(s0, m, q.store, e, still, untouched);
    LeaveOther(ids, q.store, e.x);
    LeaveOutcomes(st, s0, s1, r, q, n, e, continues);
    LeaveUnmoved(st, s0, k, m, q.store, l, e, still, untouched);
    LeaveResumed(st, s0, k, m, q, n, e, continues);
  }

  lemma UnmovedDistinct(st: State, m: Store, n: Store, e: Site, still: bool, untouched: bool)
    requires Unmoved(st, m, n, e, still, untouched)
    ensures Distinct(n) && SameCell(n, n, e.x)
  {
  }

  lemma LeaveOutcomes(st: State, s0: State, s1: State, r: State, q: Run, n: Run, e: Site, continues: Resumes)
    requires s0.loopDepths == st.loopDepths && s0.finallyDepth == st.finallyDepth
    requires e.x in s1.flow && e.x in r.flow && r.flow[e.x] == s1.flow[e.x]
    requires e.kind == RawOwner ==> e.x in s1.keep && e.x in r.keep && r.keep[e.x] == s1.keep[e.x]
    requires r.breakFlows == s1.breakFlows && r.breakKeeps == s1.breakKeeps && r.terminated == s1.terminated
    requires Outcomes(s0, s1, q, e, continues) && n.outcome == q.outcome
             && (q.outcome != Cut ==> SameCell(q.store, n.store, e.x))
    ensures Outcomes(st, r, n, e, continues)
  {
    hide FlowHolds, KeepHolds, Distinct;
    if q.outcome != Cut {
      SameCellOutcomes(s0, s1, q, n.store, e, continues);
    }
  }

  lemma LeaveUnmoved(st: State, s0: State, k: Store, m: Store, n: Store, l: Store, e: Site, still: bool,
                     untouched: bool)
    requires s0.keep == st.keep && SameCell(k, m, e.x) && SameCell(n, l, e.x) && Unmoved(s0, m, n, e, still, untouched)
    ensures Unmoved(st, k, l, e, still, untouched)
  {
    hide Distinct;
  }

  lemma LeaveResumed(st: State, s0: State, k: Store, m: Store, q: Run, n: Run, e: Site, continues: Resumes)
    requires s0.keep == st.keep && SameCell(k, m, e.x) && Resumed(s0, m, q, e, continues) && n.outcome == q.outcome
    requires q.outcome != Cut ==> SameCell(q.store, n.store, e.x)
    ensures Resumed(st, k, n, e, continues)
  {
    hide Distinct;
  }

  // ---- Branches ----

  /** A run through one branch: if it comes out at the end, some collected path is right. */
  ghost predicate ArmOutcomes(st: State, r: State, p: Paths, q: Run, e: Site, continues: Resumes) {
    match q.outcome
    case Normal => RightPath(p, q.store, e)
    case _ => Outcomes(st, r, q, e, continues)
  }

  ghost predicate RightPath(p: Paths, m: Store, e: Site) {
    exists i :: 0 <= i < |p.keeps| && i < |p.flows| && Right(p.keeps[i], p.flows[i], e.x, e.kind, m, e.blind)
  }

  ghost predicate CleanPaths(p: Paths, e: Site) {
    |p.keeps| == |p.flows| && forall i | 0 <= i < |p.keeps| :: !DoomedAt(p.keeps[i], p.flows[i], e.x, e.kind)
  }

  ghost predicate SoundArms(st: State, r: State, p: Paths, m: Store, q: Run, e: Site,
                            still: bool, untouched: bool, continues: Resumes) {
    var outcomes := ArmOutcomes(st, r, p, q, e, continues);
    var unmoved := Unmoved(st, m, q.store, e, still, untouched);
    outcomes && unmoved && Resumed(st, m, q, e, continues)
  }

  lemma PastArms(st: State, r: State, p: Paths, m: Store, q: Run, e: Site, nulls: bool,
                 still: bool, untouched: bool, continues: Resumes)
    ensures SoundArms(st, r, p, m, q, Past(e, nulls), still, untouched, continues) <==>
            SoundArms(st, r, p, m, q, e, still, untouched, continues)
  {
    PastSound(st, r, m, q, e, nulls, still, untouched, continues);
    PastPath(p, q.store, e, nulls);
  }

  lemma PastPath(p: Paths, m: Store, e: Site, nulls: bool)
    ensures RightPath(p, m, Past(e, nulls)) <==> RightPath(p, m, e)
  {
  }

  /** Before the branches: from the tables `keep` and `flow`, in the stacks of `st`. */
  ghost predicate AskArms(keep: KeepMap, flow: FlowMap, st: State, r: State, q: Paths, m: Store, e: Site,
                          still: bool, continues: Resumes, looks: bool) {
    var before, good := Before(EnterBranch(keep, flow, st), m, e), ExitsGood(r, e) && CleanPaths(q, e);
    var fits := WatchFits(EnterBranch(keep, flow, st), e, still, continues);
    before && Quiet(st, r) && good && fits && Readable(e, looks)
  }

  lemma {:induction false} SoundElse(els: Else, keep: KeepMap, flow: FlowMap, open: bool, st: State, p: Paths,
                                     cs: seq<Choice>, m: Store, e: Site)
    requires ResolvedElse(els, e.x, Inside(e.kind)) && CoveredElse(els, e.x, Inside(e.kind), e.terms)
    requires |p.keeps| == |p.flows| && (open || els.ElseBody?)
    requires var (r, q) := CheckElse(els, keep, flow, open, st, p);
             AskArms(keep, flow, st, r, q, m, e, !MentionsElse(els, e.x, Assigning), ResumeElse(els, e.x),
                     MentionsElse(els, e.x, Reading))
    ensures var (r, q) := CheckElse(els, keep, flow, open, st, p);
            SoundArms(EnterBranch(keep, flow, st), r, q, m, RunElse(els, cs, m), e,
                      !MentionsElse(els, e.x, Assigning), !MentionsElse(els, e.x, Changing), ResumeElse(els, e.x))
    decreases |cs|, els, 0
  {
    hide CheckBlock, RunBlock, Only, Distinct, Safe, Coherent, ResolvedAll, CoveredAll, MentionsAll, ResumeAll,
         RightExit, RightKeep, TopGrows;
    var (r, q) := CheckElse(els, keep, flow, open, st, p);
    var last := |p.keeps|;
    match els
    case NoElse =>
      assert q.keeps[last] == keep && q.flows[last] == flow;
    case ElseBody(body) =>
      var s0 := EnterBranch(keep, flow, st);
      assert !r.terminated ==> q.keeps[last] == r.keep && q.flows[last] == r.flow;
      SoundBlock(body, cs, m, s0, e);
  }

  lemma {:induction false} SoundArm(kind: ArmKind, arms: Arms, seen: set<Label>, keep: KeepMap, flow: FlowMap,
                                    st: State, p: Paths, r: State, q: Paths, n: nat, cs: seq<Choice>, m: Store, e: Site)
    requires n < Count(arms) && (kind.Catches? || NoneCaught(arms)) && |p.keeps| == |p.flows|
    requires ResolvedArms(arms, e.x, Inside(e.kind)) && CoveredArms(arms, e.x, Inside(e.kind), e.terms)
    requires CheckArms(kind, arms, seen, keep, flow, st, p) == (r, q)
    requires AskArms(keep, flow, st, r, q, m, e, !MentionsArms(arms, e.x, Assigning), ResumeArms(arms, e.x),
                     MentionsArms(arms, e.x, Reading))
    ensures SoundArms(EnterBranch(keep, flow, st), r, q, m, RunArm(arms, n, kind.Catches?, cs, m), e,
                      !MentionsArms(arms, e.x, Assigning), !MentionsArms(arms, e.x, Changing), ResumeArms(arms, e.x))
    decreases |cs|, arms, 1
  {
    hide *;
    if n > 0 { SoundLaterArm(kind, arms, seen, keep, flow, st, p, r, q, n, cs, m, e); }
    else { SoundFirstArm(kind, arms, seen, keep, flow, st, p, r, q, n, cs, m, e); }
  }

  lemma {:induction false} SoundLaterArm(kind: ArmKind, arms: Arms, seen: set<Label>, keep: KeepMap, flow: FlowMap,
                                    st: State, p: Paths, r: State, q: Paths, n: nat, cs: seq<Choice>, m: Store, e: Site)
    requires 0 < n < Count(arms) && (kind.Catches? || NoneCaught(arms)) && |p.keeps| == |p.flows|
    requires ResolvedArms(arms, e.x, Inside(e.kind)) && CoveredArms(arms, e.x, Inside(e.kind), e.terms)
    requires CheckArms(kind, arms, seen, keep, flow, st, p) == (r, q)
    requires AskArms(keep, flow, st, r, q, m, e, !MentionsArms(arms, e.x, Assigning), ResumeArms(arms, e.x),
                     MentionsArms(arms, e.x, Reading))
    ensures SoundArms(EnterBranch(keep, flow, st), r, q, m, RunArm(arms, n, kind.Catches?, cs, m), e,
                      !MentionsArms(arms, e.x, Assigning), !MentionsArms(arms, e.x, Changing), ResumeArms(arms, e.x))
    decreases |cs|, arms, 0
  {
    hide *;
    ArmsUnfold(kind, arms, seen, keep, flow, st, p, n, cs, m, e);
    var tag, body, rest := arms.tag, arms.body, arms.rest;
    var s0 := EnterBranch(keep, flow, st);
    var s2 := CheckBlock(body, EnterArm(kind, tag, seen, s0));
    var s3, p1 := LeaveArm(kind, s2), AddPath(p, s2);
    var run := RunArm(arms, n, kind.Catches?, cs, m);
    ArmAsks(kind, tag, body, rest, seen, keep, flow, st, s2, r, p, q, m, e,
            !MentionsAll(body, e.x, Assigning), ResumeAll(body, e.x), MentionsAll(body, e.x, Reading),
            !MentionsArms(rest, e.x, Assigning), ResumeArms(rest, e.x), MentionsArms(rest, e.x, Reading));
    SoundArm(kind, rest, seen + {tag}, keep, flow, s3, p1, r, q, n - 1, cs, m, e);
    ArmsElse(st, s3, r, q, m, run, keep, flow, e,
             !MentionsArms(rest, e.x, Assigning), !MentionsArms(rest, e.x, Changing), ResumeArms(rest, e.x),
             !MentionsAll(body, e.x, Assigning), !MentionsAll(body, e.x, Changing), ResumeAll(body, e.x));
  }

  lemma {:induction false} SoundFirstArm(kind: ArmKind, arms: Arms, seen: set<Label>, keep: KeepMap, flow: FlowMap,
                                    st: State, p: Paths, r: State, q: Paths, n: nat, cs: seq<Choice>, m: Store, e: Site)
    requires n == 0 < Count(arms) && (kind.Catches? || NoneCaught(arms)) && |p.keeps| == |p.flows|
    requires ResolvedArms(arms, e.x, Inside(e.kind)) && CoveredArms(arms, e.x, Inside(e.kind), e.terms)
    requires CheckArms(kind, arms, seen, keep, flow, st, p) == (r, q)
    requires AskArms(keep, flow, st, r, q, m, e, !MentionsArms(arms, e.x, Assigning), ResumeArms(arms, e.x),
                     MentionsArms(arms, e.x, Reading))
    ensures SoundArms(EnterBranch(keep, flow, st), r, q, m, RunArm(arms, n, kind.Catches?, cs, m), e,
                      !MentionsArms(arms, e.x, Assigning), !MentionsArms(arms, e.x, Changing), ResumeArms(arms, e.x))
    decreases |cs|, arms, 0
  {
    hide *;
    ArmsUnfold(kind, arms, seen, keep, flow, st, p, n, cs, m, e);
    var tag, body, rest := arms.tag, arms.body, arms.rest;
    var s0 := EnterBranch(keep, flow, st);
    var s2 := CheckBlock(body, EnterArm(kind, tag, seen, s0));
    var s3, p1 := LeaveArm(kind, s2), AddPath(p, s2);
    var run := RunArm(arms, n, kind.Catches?, cs, m);
    ArmAsks(kind, tag, body, rest, seen, keep, flow, st, s2, r, p, q, m, e,
            !MentionsAll(body, e.x, Assigning), ResumeAll(body, e.x), MentionsAll(body, e.x, Reading),
            !MentionsArms(rest, e.x, Assigning), ResumeArms(rest, e.x), MentionsArms(rest, e.x, Reading));
    SoundArmBody(kind, tag, body, seen, keep, flow, st, cs, m, e);
    ArmsLater(st, s0, s2, s3, r, p, p1, q, m, run, e,
              !MentionsAll(body, e.x, Assigning), !MentionsAll(body, e.x, Changing), ResumeAll(body, e.x),
              !MentionsArms(rest, e.x, Assigning), !MentionsArms(rest, e.x, Changing), ResumeArms(rest, e.x));
  }

  /** One branch and the others, in every function over branches. */
  lemma ArmsUnfold(kind: ArmKind, arms: Arms, seen: set<Label>, keep: KeepMap, flow: FlowMap, st: State, p: Paths,
                   n: nat, cs: seq<Choice>, m: Store, e: Site)
    requires n < Count(arms) && (kind.Catches? || NoneCaught(arms))
    requires ResolvedArms(arms, e.x, Inside(e.kind)) && CoveredArms(arms, e.x, Inside(e.kind), e.terms)
    ensures arms.Arm?
    ensures var tag, body, rest := arms.tag, arms.body, arms.rest;
            && tag != Caught(e.x) && (kind.Catches? || (!tag.Caught? && NoneCaught(rest)))
            && ResolvedAll(body, e.x, Inside(e.kind)) && ResolvedArms(rest, e.x, Inside(e.kind))
            && CoveredAll(body, e.x, Inside(e.kind), e.terms) && CoveredArms(rest, e.x, Inside(e.kind), e.terms)
            && (n > 0 ==> n - 1 < Count(rest))
            && (forall use ::
                 MentionsArms(arms, e.x, use) <==> MentionsAll(body, e.x, use) || MentionsArms(rest, e.x, use))
            && (ResumeArms(arms, e.x) == Most(ResumeAll(body, e.x), ResumeArms(rest, e.x)))
    ensures var tag, body, rest := arms.tag, arms.body, arms.rest;
            var b := CheckBlock(body, EnterArm(kind, tag, seen, EnterBranch(keep, flow, st)));
            CheckArms(kind, arms, seen, keep, flow, st, p) ==
            CheckArms(kind, rest, seen + {tag}, keep, flow, LeaveArm(kind, b), AddPath(p, b))
    ensures var tag, body, rest := arms.tag, arms.body, arms.rest;
            RunArm(arms, n, kind.Catches?, cs, m) ==
            if n > 0 then RunArm(rest, n - 1, kind.Catches?, cs, m)
            else LeaveUnlessCut(Bound(kind.Catches?, tag), RunBlock(body, cs, Bind(kind.Catches?, tag, m)))
  {
    hide CheckBlock, EnterArm, LeaveArm, AddPath, RunBlock, MentionsAll, ResumeAll, ResolvedAll, CoveredAll;
  }

  /** What holds before the branches holds before the first and before the others. */
  lemma ArmAsks(kind: ArmKind, tag: Label, body: Stmts, rest: Arms, seen: set<Label>, keep: KeepMap, flow: FlowMap,
                st: State, b: State, r: State, p: Paths, q: Paths, m: Store, e: Site,
                s1: bool, c1: Resumes, l1: bool, s2: bool, c2: Resumes, l2: bool)
    requires tag != Caught(e.x) && |p.keeps| == |p.flows| && ResolvedAll(body, e.x, Inside(e.kind))
    requires b == CheckBlock(body, EnterArm(kind, tag, seen, EnterBranch(keep, flow, st)))
    requires (r, q) == CheckArms(kind, rest, seen + {tag}, keep, flow, LeaveArm(kind, b), AddPath(p, b))
    requires AskArms(keep, flow, st, r, q, m, e, s1 && s2, Most(c1, c2), l1 || l2)
    ensures Ask(EnterBranch(keep, flow, st), b, m, e, s1, c1, l1)
    ensures AskArms(keep, flow, LeaveArm(kind, b), r, q, m, e, s2, c2, l2)
    ensures |AddPath(p, b).keeps| == |AddPath(p, b).flows|
    ensures LeaveArm(kind, b).loopDepths == st.loopDepths && LeaveArm(kind, b).finallyDepth == st.finallyDepth
    ensures ArmEnds(st, b, LeaveArm(kind, b), r, p, AddPath(p, b), q)
  {
    hide Right, Coherent, Located, CheckBlock, CheckArms, EnterArm, LeaveArm, ResolvedAll, ExitsGood, CleanPaths,
         AddPath, TopGrows;
    var a, c, p1 := EnterBranch(keep, flow, st), LeaveArm(kind, b), AddPath(p, b);
    BranchLocated(keep, flow, st, e);
    PathsLevel(p, b);
    ArmKeepsFrame(kind, tag, body, seen, keep, flow, st);
    ArmsGrow(kind, rest, seen + {tag}, keep, flow, c, p1);
    ArmTracks(kind, tag, body, seen, keep, flow, st, e.x, Inside(e.kind), e.lv);
    ArmsSplit(a, b, c, r, p, p1, q, e);
    BeforeBranch(keep, flow, st, c, m, e, s1 && s2, Most(c1, c2));
  }

  lemma BranchLocated(keep: KeepMap, flow: FlowMap, st: State, e: Site)
    requires Located(EnterBranch(keep, flow, st), e.x, Inside(e.kind), e.lv)
    ensures Located(st.(keep := keep, flow := flow), e.x, Inside(e.kind), e.lv) && Ready(st)
  {
  }

  lemma PathsLevel(p: Paths, b: State)
    requires |p.keeps| == |p.flows|
    ensures |AddPath(p, b).keeps| == |AddPath(p, b).flows|
  {
  }

  /** After the first branch (`b`, and `c` once its scope is left) and after all (`r`). */
  predicate ArmEnds(st: State, b: State, c: State, r: State, p: Paths, p1: Paths, q: Paths) {
    && |p1.keeps| == |p1.flows| && Ready(c) && Ready(r) && Frame(c, r)
    && b.breakFlows == c.breakFlows && b.breakKeeps == c.breakKeeps
    && (!b.terminated ==> |p.keeps| < |q.keeps| && |p.keeps| < |q.flows|
                          && q.keeps[|p.keeps|] == b.keep && q.flows[|p.keeps|] == b.flow)
  }

  /** The next branch starts from the same tables. */
  lemma BeforeBranch(keep: KeepMap, flow: FlowMap, st: State, c: State, m: Store, e: Site, still: bool,
                     continues: Resumes)
    requires Before(EnterBranch(keep, flow, st), m, e) && WatchFits(EnterBranch(keep, flow, st), e, still, continues)
    requires Located(c, e.x, Inside(e.kind), e.lv) && c.loopDepths == st.loopDepths
    ensures Before(EnterBranch(keep, flow, c), m, e) && WatchFits(EnterBranch(keep, flow, c), e, still, continues)
  {
  }

  /** Exits and paths seen from the end of the branches. */
  lemma ArmsSplit(a: State, b: State, c: State, r: State, p: Paths, p1: Paths, q: Paths, e: Site)
    requires a.diagnostics <= b.diagnostics <= c.diagnostics && Quiet(a, r)
    requires Ready(c) && Ready(r) && Frame(c, r) && b.breakFlows == c.breakFlows && b.breakKeeps == c.breakKeeps
    requires p1 == AddPath(p, b) && |p.keeps| == |p.flows| && p1.keeps <= q.keeps && p1.flows <= q.flows
    requires ExitsGood(r, e) && CleanPaths(q, e)
    ensures Quiet(a, b) && Quiet(a, c) && Quiet(c, r) && Good(b, e)
    ensures !b.terminated ==> |p.keeps| < |q.keeps| && |p.keeps| < |q.flows|
                              && q.keeps[|p.keeps|] == b.keep && q.flows[|p.keeps|] == b.flow
  {
    QuietSplit(a, b, c);
    QuietSplit(a, c, r);
    GoodEarlier(c, r, e);
    assert !b.terminated ==> p1.keeps[|p.keeps|] == b.keep && p1.flows[|p.flows|] == b.flow;
    assert !b.terminated ==> q.keeps[|p.keeps|] == b.keep && q.flows[|p.flows|] == b.flow;
    assert !b.terminated ==> !DoomedAt(q.keeps[|p.keeps|], q.flows[|p.keeps|], e.x, e.kind);
  }

  /** A later branch, in the stacks the earlier ones left. */
  lemma ArmsElse(st: State, s3: State, r: State, q: Paths, m: Store, run: Run,
                 keep: KeepMap, flow: FlowMap, e: Site, s1: bool, u1: bool, c1: Resumes, s': bool, u': bool,
                     c': Resumes)
    requires s3.finallyDepth == st.finallyDepth && s3.loopDepths == st.loopDepths
    requires SoundArms(EnterBranch(keep, flow, s3), r, q, m, run, e, s1, u1, c1)
    ensures SoundArms(EnterBranch(keep, flow, st), r, q, m, run, e, s' && s1, u' && u1, Most(c', c1))
  {
    var a, b := EnterBranch(keep, flow, st), EnterBranch(keep, flow, s3);
    if run.outcome != Normal { OutcomesFrom(a, b, r, run, e, c', c1); }
  }

  lemma ArmsLater(st: State, s0: State, s2: State, s3: State, r: State, p: Paths, p1: Paths, q: Paths, m: Store,
                  run: Run, e: Site,
                  s: bool, u: bool, c: Resumes, s': bool, u': bool, c': Resumes)
    requires Sound(s0, s2, m, run, e, s, u, c) && ArmEnds(st, s2, s3, r, p, p1, q)
    ensures SoundArms(s0, r, q, m, run, e, s && s', u && u', Most(c, c'))
  {
    if run.outcome != Normal {
      assert Outcomes(s0, s3, run, e, c);
      OutcomesLater(s0, s3, r, run, e, c, c');
    }
  }

  lemma BindOther(catches: bool, tag: Label, m: Store, x: Id)
    requires Distinct(m) && tag != Caught(x)
    ensures SameCell(m, Bind(catches, tag, m), x)
  {
  }

  lemma {:induction false} SoundArmBody(kind: ArmKind, tag: Label, body: Stmts, seen: set<Label>,
                                        keep: KeepMap, flow: FlowMap, st: State, cs: seq<Choice>, m: Store, e: Site)
    requires tag != Caught(e.x) && (kind.Catches? || !tag.Caught?)
    requires ResolvedAll(body, e.x, Inside(e.kind)) && CoveredAll(body, e.x, Inside(e.kind), e.terms)
    requires var s0 := EnterBranch(keep, flow, st);
             var s2 := CheckBlock(body, EnterArm(kind, tag, seen, s0));
             Ask(s0, s2, m, e, !MentionsAll(body, e.x, Assigning), ResumeAll(body, e.x),
                 MentionsAll(body, e.x, Reading))
    ensures var s0 := EnterBranch(keep, flow, st);
            var s2 := CheckBlock(body, EnterArm(kind, tag, seen, s0));
            Sound(s0, s2, m, LeaveUnlessCut(Bound(kind.Catches?, tag),
                                            RunBlock(body, cs, Bind(kind.Catches?, tag, m))), e,
                  !MentionsAll(body, e.x, Assigning), !MentionsAll(body, e.x, Changing), ResumeAll(body, e.x))
    decreases |cs|, body, 3
  {
    hide Right, Outcomes, Unmoved, Distinct, Safe, Only, TopGrows, PairOk, CheckBlock, RunBlock, MentionsAll,
         ResumeAll, ResolvedAll, CoveredAll;
    var s0 := EnterBranch(keep, flow, st);
    var s1 := EnterArm(kind, tag, seen, s0);
    var s2 := CheckBlock(body, s1);
    var m1 := Bind(kind.Catches?, tag, m);
    assert Ready(s1) by { EnterArmGrows(kind, tag, seen, s0); }
    BlockGrows(body, s1);
    EnterArmBefore(kind, tag, seen, s0, m, e);
    QuietSplit(s0, s1, s2);
    SoundBlock(body, cs, m1, s1, e);
    assert e.x in s2.flow && (e.kind == RawOwner ==> e.x in s2.keep) by {
      BlockTracks(body, s1, e.x, Inside(e.kind), e.lv);
    }
    LeaveSound(s0, s1, s2, s2, m, m1, RunBlock(body, cs, m1), Bound(kind.Catches?, tag), e,
               !MentionsAll(body, e.x, Assigning), !MentionsAll(body, e.x, Changing), ResumeAll(body, e.x));
  }

  lemma EnterArmBefore(kind: ArmKind, tag: Label, seen: set<Label>, st: State, m: Store, e: Site)
    requires tag != Caught(e.x) && Before(st, m, e)
    ensures var r := EnterArm(kind, tag, seen, st);
            && Before(r, Bind(kind.Catches?, tag, m), e) && SameCell(m, Bind(kind.Catches?, tag, m), e.x)
            && r.keep == st.keep && r.loopDepths == st.loopDepths && r.finallyDepth == st.finallyDepth
            && r.breakKeeps == st.breakKeeps && r.breakFlows == st.breakFlows && st.diagnostics <= r.diagnostics
  {
    BindOther(kind.Catches?, tag, m, e.x);
    EnterArmTracks(kind, tag, seen, st, e.x, Inside(e.kind), e.lv);
    EnterArmKeeps(kind, tag, seen, st, e.x);
  }

  lemma EnterArmKeeps(kind: ArmKind, tag: Label, seen: set<Label>, st: State, x: Id)
    requires tag != Caught(x) && Ready(st)
    ensures var r := EnterArm(kind, tag, seen, st);
            && r.terminated == st.terminated && r.loopDepths == st.loopDepths && r.finallyDepth == st.finallyDepth
            && r.keep == st.keep && st.diagnostics <= r.diagnostics
            && (x in r.flow <==> x in st.flow) && (x in st.flow ==> r.flow[x] == st.flow[x])
  {
    hide CheckLabel, RegisterFlow;
    match kind
    case IfChain =>
    case SwitchOn(on) => LabelOnly(on, tag, seen, st);
    case Catches => if tag.Caught? { CatchOnly(tag.x, st); }
  }

  /** The merged state after the branches is right, if the run came out of one. */
  lemma RejoinSound(st: State, s2: State, p: Paths, terminated: bool, m: Store, q: Run, e: Site,
                    still: bool, untouched: bool, continues: Resumes)
    requires Coherent(st, e.x, e.kind, e.terms.nulled) && PathsOk(p, e.x, e.kind, e.terms.nulled)
    requires SoundArms(EnterBranch(st.keep, st.flow, st), s2, p, m, q, e, still, untouched, continues)
    requires p.keeps != [] ==> !terminated
    ensures Sound(st, Rejoin(st.keep, st.flow, p, terminated, s2), m, q, e, still, untouched, continues)
  {
    hide Right, TopGrows, Distinct, Safe, RightExit, RightKeep, PairOk, PathsOk, MergeKeepPaths, MergeFlowPaths;
    if q.outcome == Normal { RejoinRight(st, p, q.store, e); }
  }

  lemma RejoinRight(st: State, p: Paths, m: Store, e: Site)
    requires Coherent(st, e.x, e.kind, e.terms.nulled) && PathsOk(p, e.x, e.kind, e.terms.nulled) && RightPath(p, m, e)
    ensures p.keeps != []
    ensures Right(MergeKeepPaths(st.keep, p.keeps), MergeFlowPaths(st.flow, p.flows), e.x, e.kind, m, e.blind)
  {
    hide FlowHolds, MergeKeepPaths, MergeFlowPaths;
    var i :| 0 <= i < |p.keeps| && i < |p.flows| && Right(p.keeps[i], p.flows[i], e.x, e.kind, m, e.blind);
    assert forall j | 0 <= j < |p.flows| :: PairOk(p.keeps[j], p.flows[j], e.x, e.kind, e.terms.nulled);
    JoinRight(st.keep, st.flow, p.keeps, p.flows, i, i, e.x, e.kind, e.terms.nulled, m, e.blind);
  }

  lemma RejoinClean(st: State, s2: State, p: Paths, terminated: bool, e: Site)
    requires Coherent(st, e.x, e.kind, e.terms.nulled) && PathsOk(p, e.x, e.kind, e.terms.nulled)
    requires p.keeps != [] ==> !terminated
    requires Good(Rejoin(st.keep, st.flow, p, terminated, s2), e)
    ensures CleanPaths(p, e) && ExitsGood(s2, e)
  {
    forall i | 0 <= i < |p.keeps| ensures !DoomedAt(p.keeps[i], p.flows[i], e.x, e.kind) {
      assert PairOk(p.keeps[i], p.flows[i], e.x, e.kind, e.terms.nulled);
      if DoomedAt(p.keeps[i], p.flows[i], e.x, e.kind) {
        JoinDoomed(st.keep, st.flow, p.keeps, p.flows, i, i, e.x, e.kind);
      }
    }
  }

  lemma CleanFewer(p: Paths, q: Paths, e: Site)
    requires p.keeps <= q.keeps && p.flows <= q.flows && |p.keeps| == |p.flows| && CleanPaths(q, e)
    ensures CleanPaths(p, e)
  {
    assert forall i | 0 <= i < |p.keeps| :: p.keeps[i] == q.keeps[i] && p.flows[i] == q.flows[i];
  }

  lemma RightPathMore(p: Paths, q: Paths, m: Store, e: Site)
    requires p.keeps <= q.keeps && p.flows <= q.flows && RightPath(p, m, e)
    ensures RightPath(q, m, e)
  {
    var i :| 0 <= i < |p.keeps| && i < |p.flows| && Right(p.keeps[i], p.flows[i], e.x, e.kind, m, e.blind);
    assert p.keeps[i] == q.keeps[i] && p.flows[i] == q.flows[i];
  }

  /** A run through a branch, seen after the else branch has been visited too. */
  lemma ArmsThenElse(st: State, s1: State, s2: State, p1: Paths, p2: Paths, m: Store, q: Run, e: Site,
                     s: bool, u: bool, c: Resumes, s': bool, u': bool, c': Resumes)
    requires SoundArms(st, s1, p1, m, q, e, s, u, c)
    requires Ready(s1) && Ready(s2) && Frame(s1, s2) && p1.keeps <= p2.keeps && p1.flows <= p2.flows
    ensures SoundArms(st, s2, p2, m, q, e, s && s', u && u', Most(c, c'))
  {
    if q.outcome == Normal { RightPathMore(p1, p2, q.store, e); }
    else { OutcomesLater(st, s1, s2, q, e, c, c'); }
  }

  /** The common part of if and switch: the run goes through branch `pick`, or through the
      else branch when there is no such branch. */
  lemma {:induction false} SoundBranches(kind: ArmKind, arms: Arms, els: Else, open: bool, st: State,
                                         cs: seq<Choice>, m: Store, e: Site, pick: nat)
    requires !kind.Catches? && NoneCaught(arms)
    requires ResolvedArms(arms, e.x, Inside(e.kind)) && CoveredArms(arms, e.x, Inside(e.kind), e.terms)
    requires ResolvedElse(els, e.x, Inside(e.kind)) && CoveredElse(els, e.x, Inside(e.kind), e.terms)
    requires pick < Count(arms) || open || els.ElseBody?
    requires var (s1, p1) := CheckArms(kind, arms, {}, st.keep, st.flow, st, Paths([], []));
             var (s2, p2) := CheckElse(els, st.keep, st.flow, open, s1, p1);
             && Before(st, m, e) && Quiet(st, s2) && ExitsGood(s2, e) && CleanPaths(p2, e)
             && WatchFits(st, e, !MentionsArms(arms, e.x, Assigning) && !MentionsElse(els, e.x, Assigning),
                          Most(ResumeArms(arms, e.x), ResumeElse(els, e.x)))
             && Readable(e, MentionsArms(arms, e.x, Reading) || MentionsElse(els, e.x, Reading))
    ensures var (s1, p1) := CheckArms(kind, arms, {}, st.keep, st.flow, st, Paths([], []));
            var (s2, p2) := CheckElse(els, st.keep, st.flow, open, s1, p1);
            var q := if pick < Count(arms) then RunArm(arms, pick, false, cs, m) else RunElse(els, cs, m);
            SoundArms(EnterBranch(st.keep, st.flow, st), s2, p2, m, q, e,
                      !MentionsArms(arms, e.x, Assigning) && !MentionsElse(els, e.x, Assigning),
                      !MentionsArms(arms, e.x, Changing) && !MentionsElse(els, e.x, Changing),
                      Most(ResumeArms(arms, e.x), ResumeElse(els, e.x)))
    decreases |cs|
  {
    hide Right, Outcomes, Unmoved, Only, TopGrows, Distinct, Safe, Holds, PairOk, CheckArms, CheckElse, RunArm,
         RunElse, Count, MentionsArms, MentionsElse, ResumeArms, ResumeElse, ResolvedArms, CoveredArms,
         ResolvedElse, CoveredElse;
    var p0 := Paths([], []);
    var (s1, p1) := CheckArms(kind, arms, {}, st.keep, st.flow, st, p0);
    var (s2, p2) := CheckElse(els, st.keep, st.flow, open, s1, p1);
    ArmsGrow(kind, arms, {}, st.keep, st.flow, st, p0);
    ElseGrows(els, st.keep, st.flow, open, s1, p1);
    QuietSplit(st, s1, s2);
    GoodEarlier(s1, s2, e);
    CleanFewer(p1, p2, e);
    var s0 := EnterBranch(st.keep, st.flow, st);
    assert s0 == st;
    if pick < Count(arms) {
      SoundArm(kind, arms, {}, st.keep, st.flow, st, p0, s1, p1, pick, cs, m, e);
      ArmsThenElse(s0, s1, s2, p1, p2, m, RunArm(arms, pick, false, cs, m), e,
                   !MentionsArms(arms, e.x, Assigning), !MentionsArms(arms, e.x, Changing), ResumeArms(arms, e.x),
                   !MentionsElse(els, e.x, Assigning), !MentionsElse(els, e.x, Changing), ResumeElse(els, e.x));
    } else {
      ArmsTrack(kind, arms, {}, st.keep, st.flow, st, p0, e.x, Inside(e.kind), e.lv);
      SoundElse(els, st.keep, st.flow, open, s1, p1, cs, m, e);
      ArmsElse(st, s1, s2, p2, m, RunElse(els, cs, m), st.keep, st.flow, e,
               !MentionsElse(els, e.x, Assigning), !MentionsElse(els, e.x, Changing), ResumeElse(els, e.x),
               !MentionsArms(arms, e.x, Assigning), !MentionsArms(arms, e.x, Changing), ResumeArms(arms, e.x));
    }
  }

  lemma {:induction false} SoundIf(s: Stmt, cs: seq<Choice>, m: Store, st: State, e: Site)
    requires s.If? && Resolved(s, e.x, Inside(e.kind)) && Covered(s, e.x, Inside(e.kind), e.terms)
    requires Ask(st, CheckIf(s, st), m, e, !Mentions(s, e.x, Assigning), Resume(s, e.x), Mentions(s, e.x, Reading))
    ensures Sound(st, CheckIf(s, st), m, RunStmt(s, cs, m), e,
                  !Mentions(s, e.x, Assigning), !Mentions(s, e.x, Changing), Resume(s, e.x))
    decreases |cs|, s, 1
  {
    hide Right, Outcomes, Unmoved, Located, Coherent, PathsOk, CleanPaths, ExitsGood, CheckArms, CheckElse, RunArm,
         RunElse, MentionsArms, MentionsElse, ResumeArms, ResumeElse, ResolvedArms, CoveredArms, ResolvedElse,
         CoveredElse;
    var (s1, p1) := CheckArms(IfChain, s.arms, {}, st.keep, st.flow, st, Paths([], []));
    var (s2, p2) := CheckElse(s.els, st.keep, st.flow, true, s1, p1);
    var e' := Past(e, Mentions(s, e.x, Nulling));
    StmtSteady(s, e);
    PastState(st, e, Mentions(s, e.x, Nulling));
    BranchesSteady(s, s.arms, s.els, e');
    BranchesOk(IfChain, s.arms, s.els, true, st, e');
    PastClean(s2, Rejoin(st.keep, st.flow, p2, p2.keeps == [], s2), p2, e, Mentions(s, e.x, Nulling));
    RejoinClean(st, s2, p2, p2.keeps == [], e');
    if |cs| > 0 && cs[0].Pick? {
      SoundBranches(IfChain, s.arms, s.els, true, st, cs[1..], m, e, cs[0].n);
      RejoinPast(st, s2, p2, p2.keeps == [], m, RunStmt(s, cs, m), e, Mentions(s, e.x, Nulling),
                 !Mentions(s, e.x, Assigning), !Mentions(s, e.x, Changing), Resume(s, e.x));
    } else {
      SoundCut(st, CheckIf(s, st), m, cs, e, !Mentions(s, e.x, Assigning), !Mentions(s, e.x, Changing), Resume(s, e.x));
    }
  }

  /** The conditions on a statement, branch by branch. */
  lemma BranchesSteady(s: Stmt, arms: Arms, els: Else, e: Site)
    requires (s.If? || s.Switch?) && arms == s.arms && els == s.els && Steady(s, e.x, e.kind, e.terms.nulled)
    ensures SteadyArms(arms, e.x, e.kind, e.terms.nulled) && SteadyElse(els, e.x, e.kind, e.terms.nulled)
  {
    hide MentionsArms, MentionsElse, BottomsLookArms, BottomsLookElse;
  }

  lemma PastClean(s2: State, r: State, p: Paths, e: Site, nulls: bool)
    ensures Good(r, Past(e, nulls)) <==> Good(r, e)
    ensures CleanPaths(p, Past(e, nulls)) <==> CleanPaths(p, e)
    ensures ExitsGood(s2, Past(e, nulls)) <==> ExitsGood(s2, e)
  {
  }

  lemma RejoinPast(st: State, s2: State, p: Paths, terminated: bool, m: Store, q: Run, e: Site, nulls: bool,
                   still: bool, untouched: bool, continues: Resumes)
    requires Coherent(st, e.x, e.kind, Past(e, nulls).terms.nulled)
             && PathsOk(p, e.x, e.kind, Past(e, nulls).terms.nulled)
    requires SoundArms(EnterBranch(st.keep, st.flow, st), s2, p, m, q, e, still, untouched, continues)
    requires p.keeps != [] ==> !terminated
    ensures Sound(st, Rejoin(st.keep, st.flow, p, terminated, s2), m, q, e, still, untouched, continues)
  {
    hide SoundArms, Sound, PathsOk, PairOk;
    PastArms(EnterBranch(st.keep, st.flow, st), s2, p, m, q, e, nulls, still, untouched, continues);
    RejoinSound(st, s2, p, terminated, m, q, Past(e, nulls), still, untouched, continues);
    PastSound(st, Rejoin(st.keep, st.flow, p, terminated, s2), m, q, e, nulls, still, untouched, continues);
  }

  /** A run cut on the spot. */
  lemma SoundCut(st: State, r: State, m: Store, cs: seq<Choice>, e: Site, still: bool, untouched: bool,
                 continues: Resumes)
    requires Before(st, m, e)
    ensures Sound(st, r, m, Run(Cut, cs, m), e, still, untouched, continues)
  {
  }

  lemma BranchesOk(kind: ArmKind, arms: Arms, els: Else, open: bool, st: State, e: Site)
    requires Located(st, e.x, Inside(e.kind), e.lv) && Coherent(st, e.x, e.kind, e.terms.nulled)
    requires (kind.Catches? || NoneCaught(arms))
    requires ResolvedArms(arms, e.x, Inside(e.kind)) && SteadyArms(arms, e.x, e.kind, e.terms.nulled)
    requires ResolvedElse(els, e.x, Inside(e.kind)) && SteadyElse(els, e.x, e.kind, e.terms.nulled)
    ensures var (s1, p1) := CheckArms(kind, arms, {}, st.keep, st.flow, st, Paths([], []));
            var (s2, p2) := CheckElse(els, st.keep, st.flow, open, s1, p1);
            PathsOk(p2, e.x, e.kind, e.terms.nulled)
  {
    hide CheckArms, CheckElse, Only;
    assert st.(keep := st.keep, flow := st.flow) == st;
    var (s1, p1) := CheckArms(kind, arms, {}, st.keep, st.flow, st, Paths([], []));
    ArmsTrack(kind, arms, {}, st.keep, st.flow, st, Paths([], []), e.x, Inside(e.kind), e.lv);
    ArmsSteps(kind, arms, {}, st.keep, st.flow, st, Paths([], []), e.x, e.kind, e.lv, e.terms.nulled);
    ElseSteps(els, st.keep, st.flow, open, s1, p1, e.x, e.kind, e.lv, e.terms.nulled);
  }

  lemma {:induction false} SoundSwitch(s: Stmt, cs: seq<Choice>, m: Store, st: State, e: Site)
    requires s.Switch? && Resolved(s, e.x, Inside(e.kind)) && Covered(s, e.x, Inside(e.kind), e.terms)
    requires Ask(st, CheckSwitch(s, st), m, e, !Mentions(s, e.x, Assigning), Resume(s, e.x), Mentions(s, e.x, Reading))
    ensures Sound(st, CheckSwitch(s, st), m, RunStmt(s, cs, m), e,
                  !Mentions(s, e.x, Assigning), !Mentions(s, e.x, Changing), Resume(s, e.x))
    decreases |cs|, s, 1
  {
    hide Sound, Only, TopGrows, Covers, LabelFits, Labels, Count, RunStmt, Coherent, PathsOk, CleanPaths, ExitsGood,
         CheckArms, CheckElse, RunArm, RunElse, MentionsArms, MentionsElse, ResumeArms, ResumeElse, ResolvedArms,
         CoveredArms, ResolvedElse, CoveredElse, Right, Distinct, Safe, MergeKeepPaths, MergeFlowPaths, Steady;
    var all := s.els.ElseBody? || Covers(s.on, Labels(s.arms));
    var (s1, p1) := CheckArms(SwitchOn(s.on), s.arms, {}, st.keep, st.flow, st, Paths([], []));
    var (s2, p2) := CheckElse(s.els, st.keep, st.flow, !all, s1, p1);
    SwitchQuiet(s, st, all, s2, p2);
    var e' := Past(e, Mentions(s, e.x, Nulling));
    StmtSteady(s, e);
    PastState(st, e, Mentions(s, e.x, Nulling));
    BranchesSteady(s, s.arms, s.els, e');
    BranchesOk(SwitchOn(s.on), s.arms, s.els, !all, st, e');
    PastClean(s2, Rejoin(st.keep, st.flow, p2, all && p2.keeps == [], s2), p2, e, Mentions(s, e.x, Nulling));
    RejoinClean(st, s2, p2, all && p2.keeps == [], e');
    if |cs| > 0 && cs[0].Value? && LabelFits(s.on, cs[0].v) {
      var pick := SwitchPicks(s, all, cs, m);
      SoundBranches(SwitchOn(s.on), s.arms, s.els, !all, st, cs[1..], m, e, pick);
      RejoinPast(st, s2, p2, all && p2.keeps == [], m, RunStmt(s, cs, m), e, Mentions(s, e.x, Nulling),
                 !Mentions(s, e.x, Assigning), !Mentions(s, e.x, Changing), Resume(s, e.x));
    } else {
      SwitchCut(s, cs, m);
      SoundCut(st, CheckSwitch(s, st), m, cs, e, !Mentions(s, e.x, Assigning), !Mentions(s, e.x, Changing),
               Resume(s, e.x));
    }
  }

  /** The branch a selector value picks. */
  lemma SwitchPicks(s: Stmt, all: bool, cs: seq<Choice>, m: Store) returns (pick: nat)
    requires s.Switch? && |cs| > 0 && cs[0].Value? && LabelFits(s.on, cs[0].v)
    requires all == (s.els.ElseBody? || Covers(s.on, Labels(s.arms)))
    ensures RunStmt(s, cs, m) ==
            if pick < Count(s.arms) then RunArm(s.arms, pick, false, cs[1..], m) else RunElse(s.els, cs[1..], m)
    ensures pick < Count(s.arms) || !all || s.els.ElseBody?
  {
    var v := cs[0].v;
    if v in Labels(s.arms) {
      CaseIsArm(s.arms, v, cs[1..], m);
      pick := CaseIndex(s.arms, v);
    } else {
      if Covers(s.on, Labels(s.arms)) { CoversEvery(s.on, Labels(s.arms), v); }
      pick := Count(s.arms);
    }
  }

  lemma SwitchCut(s: Stmt, cs: seq<Choice>, m: Store)
    requires s.Switch? && !(|cs| > 0 && cs[0].Value? && LabelFits(s.on, cs[0].v))
    ensures RunStmt(s, cs, m) == Run(Cut, cs, m)
  {
  }

  /** A switch without a report is as if no label had been checked. */
  lemma SwitchQuiet(s: Stmt, st: State, all: bool, s2: State, p2: Paths)
    requires s.Switch? && Ready(st) && Quiet(st, CheckSwitch(s, st))
    requires all == (s.els.ElseBody? || Covers(s.on, Labels(s.arms)))
    requires var (s1, p1) := CheckArms(SwitchOn(s.on), s.arms, {}, st.keep, st.flow, st, Paths([], []));
             (s2, p2) == CheckElse(s.els, st.keep, st.flow, !all, s1, p1)
    ensures CheckSwitch(s, st) == Rejoin(st.keep, st.flow, p2, all && p2.keeps == [], s2)
    ensures Quiet(st, s2)
  {
    hide CheckArms, CheckElse, Covers, TopGrows;
    var (s1, p1) := CheckArms(SwitchOn(s.on), s.arms, {}, st.keep, st.flow, st, Paths([], []));
    var s3 := ReportIf(s.exhaustive && !all, s2, NonExhaustiveMatch, NO_SYMBOL);
    ArmsGrow(SwitchOn(s.on), s.arms, {}, st.keep, st.flow, st, Paths([], []));
    ElseGrows(s.els, st.keep, st.flow, !all, s1, p1);
    assert st.diagnostics <= s2.diagnostics <= s3.diagnostics;
    assert s3 == s2;
  }

  // ---- Loops ----

  /** How the exits of a loop met with `st` are watched while its body is walked. */
  function InnerWatch(body: Stmts, st: State, e: Site): Watch {
    if !Owned(Inside(e.kind)) then Off
    else if e.kind == RawOwner && e.x in st.keep && st.keep[e.x] == Deleted then
      if MentionsAll(body, e.x, Assigning) then Cold else Off
    else Hot
  }

  function Inner(body: Stmts, st: State, e: Site): Site { e.(watch := InnerWatch(body, st, e)) }

  predicate FirstExits(first: Paths, st: State, kind: Kind) {
    first == Paths([st.keep], [st.flow]) || (first == Paths([], []) && !Owned(Inside(kind)))
  }

  /** A do-while that only looks at an owner or a task. */
  predicate JustLooks(body: Stmts, first: Paths, e: Site) {
    first == Paths([], []) && Owned(Inside(e.kind)) && !MentionsAll(body, e.x, Changing)
  }

  /** What the single pass over a loop body, from `st` to `s1`, establishes. */
  ghost predicate Passed(st: State, first: Paths, s1: State, e: Site) {
    && Located(st, e.x, Inside(e.kind), e.lv) && Coherent(st, e.x, e.kind, e.terms.nulled)
    && FirstExits(first, st, e.kind)
    && Ready(s1) && Frame(EnterLoop(st), s1)
    && |s1.breakKeeps| > 0 && |s1.breakFlows| > 0 && |s1.loopDepths| > 0
    && Coherent(s1, e.x, e.kind, e.terms.nulled) && ExitsCoherent(s1, e.x, e.kind, e.terms.nulled)
    && Coherent(LeaveLoop(st.keep, st.flow, first, s1), e.x, e.kind, e.terms.nulled)
  }

  lemma LoopPasses(body: Stmts, first: Paths, st: State, e: Site)
    requires Located(st, e.x, Inside(e.kind), e.lv) && Coherent(st, e.x, e.kind, e.terms.nulled)
    requires ResolvedAll(body, e.x, Inside(e.kind)) && SteadyAll(body, e.x, e.kind, e.terms.nulled)
    requires FirstExits(first, st, e.kind)
    ensures Passed(st, first, CheckBlock(body, EnterLoop(st)), e)
  {
    var s1 := CheckBlock(body, EnterLoop(st));
    EnterLoopLocated(st, e.x, e.kind, e.lv, e.terms.nulled);
    BlockSteps(body, EnterLoop(st), e.x, e.kind, e.lv, e.terms.nulled);
    BlockGrows(body, EnterLoop(st));
    LeaveSteps(st, first, s1, e.x, e.kind, e.terms.nulled, !MentionsAll(body, e.x, Assigning));
  }

  function ExitKeeps(first: Paths, s1: State): seq<KeepMap>
    requires |s1.breakKeeps| > 0
  {
    AddPath(first, s1).keeps + Last(s1.breakKeeps)
  }

  function ExitFlows(first: Paths, s1: State): seq<FlowMap>
    requires |s1.breakFlows| > 0
  {
    AddPath(first, s1).flows + Last(s1.breakFlows)
  }

  lemma ExitsKnown(st: State, first: Paths, s1: State, e: Site)
    requires Passed(st, first, s1, e)
    ensures ExitsOk(ExitKeeps(first, s1), ExitFlows(first, s1), e.x, e.kind, e.terms.nulled)
  {
    var p := AddPath(first, s1);
    assert PathsOk(p, e.x, e.kind, e.terms.nulled);
    ExitPaths(p, s1, ExitKeeps(first, s1), ExitFlows(first, s1), e.x, e.kind, e.terms.nulled);
  }

  /** Any exit that is right makes the state after the loop right. */
  lemma LeaveRight(st: State, first: Paths, s1: State, i: nat, j: nat, m: Store, e: Site)
    requires Passed(st, first, s1, e)
    requires j < |ExitFlows(first, s1)| && e.x in ExitFlows(first, s1)[j]
    requires FlowHolds(e.kind, ExitFlows(first, s1)[j][e.x], m, e.x, e.blind)
    requires e.kind == RawOwner ==>
               i < |ExitKeeps(first, s1)| && e.x in ExitKeeps(first, s1)[i]
                   && KeepHolds(ExitKeeps(first, s1)[i][e.x], m, e.x)
    ensures var r := LeaveLoop(st.keep, st.flow, first, s1);
            Right(r.keep, r.flow, e.x, e.kind, m, e.blind)
  {
    ExitsKnown(st, first, s1, e);
    var keeps := ExitKeeps(first, s1);
    JoinRight(st.keep, st.flow, if keeps == [] then [st.keep] else keeps, ExitFlows(first, s1),
              i, j, e.x, e.kind, e.terms.nulled, m, e.blind);
  }

  /** An exit whose value state is right, alone. */
  lemma LeaveFlowRight(st: State, first: Paths, s1: State, j: nat, m: Store, e: Site)
    requires Passed(st, first, s1, e) && e.kind != Exception
    requires j < |ExitFlows(first, s1)| && e.x in ExitFlows(first, s1)[j]
    requires FlowHolds(e.kind, ExitFlows(first, s1)[j][e.x], m, e.x, e.blind)
    ensures FlowHolds(e.kind, LeaveLoop(st.keep, st.flow, first, s1).flow[e.x], m, e.x, e.blind)
  {
    ExitsKnown(st, first, s1, e);
    var flows := ExitFlows(first, s1);
    RegularPaths(e.x, st.flow[e.x], flows, e.kind, e.terms.nulled);
    JoinFlowIsLeast(e.x, st.flow[e.x], flows);
    assert FlowBelow(FlowAt(flows[j], e.x, st.flow[e.x]), JoinFlow(e.x, st.flow[e.x], flows));
  }

  /** If the state after the loop is not doomed, nothing met inside was. */
  lemma InnerGood(body: Stmts, st: State, first: Paths, s1: State, e: Site)
    requires Passed(st, first, s1, e)
    requires !Doomed(LeaveLoop(st.keep, st.flow, first, s1), e.x, e.kind)
    ensures Good(s1, Inner(body, st, e))
  {
    hide LeaveLoop, Located, Coherent, ExitsCoherent, CleanFlows, AllDeleted, Ready, Frame, AddPath, MentionsAll;
    if Owned(Inside(e.kind)) {
      if !s1.terminated { EndClean(st, first, s1, e); }
      if !CleanFlows(Last(s1.breakFlows), e.x, e.kind) { ExitsClean(st, first, s1, e); }
    }
  }

  /** The entry state is the first exit; the end of the body, if it is reached, the second. */
  lemma ExitsAre(st: State, first: Paths, s1: State, e: Site)
    requires Passed(st, first, s1, e) && Owned(Inside(e.kind))
    ensures var keeps, flows, n := ExitKeeps(first, s1), ExitFlows(first, s1), |AddPath(first, s1).keeps|;
            && n == |AddPath(first, s1).flows|
            && |keeps| > 0 && |flows| > 0 && keeps[0] == st.keep && flows[0] == st.flow
            && (!s1.terminated ==> |keeps| > 1 && |flows| > 1 && keeps[1] == s1.keep && flows[1] == s1.flow)
            && |keeps| == n + |Last(s1.breakKeeps)| && |flows| == n + |Last(s1.breakFlows)|
            && (forall i | 0 <= i < |Last(s1.breakKeeps)| :: keeps[n + i] == Last(s1.breakKeeps)[i])
            && (forall j | 0 <= j < |Last(s1.breakFlows)| ::
                 flows[n + j] == Last(s1.breakFlows)[j] && e.x in Last(s1.breakFlows)[j])
  {
    hide Located, Coherent, Frame, Ready, PairOk, FlowOk, ExitsCoherent;
    ExitsKnown(st, first, s1, e);
    ExitsListed(st, first, s1);
    var flows, n := ExitFlows(first, s1), |AddPath(first, s1).flows|;
    forall j | 0 <= j < |Last(s1.breakFlows)| ensures e.x in Last(s1.breakFlows)[j] { assert e.x in flows[n + j]; }
  }

  lemma ExitsListed(st: State, first: Paths, s1: State)
    requires first == Paths([st.keep], [st.flow]) && |s1.breakKeeps| > 0 && |s1.breakFlows| > 0
    ensures var keeps, flows, n := ExitKeeps(first, s1), ExitFlows(first, s1), |AddPath(first, s1).keeps|;
            && n == |AddPath(first, s1).flows|
            && |keeps| > 0 && |flows| > 0 && keeps[0] == st.keep && flows[0] == st.flow
            && (!s1.terminated ==> |keeps| > 1 && |flows| > 1 && keeps[1] == s1.keep && flows[1] == s1.flow)
            && |keeps| == n + |Last(s1.breakKeeps)| && |flows| == n + |Last(s1.breakFlows)|
            && (forall i | 0 <= i < |Last(s1.breakKeeps)| :: keeps[n + i] == Last(s1.breakKeeps)[i])
            && (forall j | 0 <= j < |Last(s1.breakFlows)| :: flows[n + j] == Last(s1.breakFlows)[j])
  {
  }

  lemma DoomedAfter(st: State, first: Paths, s1: State, i: nat, j: nat, e: Site)
    requires Passed(st, first, s1, e) && Owned(Inside(e.kind))
    requires j < |ExitFlows(first, s1)| && e.x in ExitFlows(first, s1)[j] && Bad(e.kind, ExitFlows(first, s1)[j][e.x])
    requires e.kind == RawOwner ==>
               i < |ExitKeeps(first, s1)| && e.x in ExitKeeps(first, s1)[i] && ExitKeeps(first, s1)[i][e.x] != Deleted
    ensures Doomed(LeaveLoop(st.keep, st.flow, first, s1), e.x, e.kind)
  {
    hide Located, Ready, Frame, ExitsCoherent;
    var keeps := ExitKeeps(first, s1);
    JoinDoomed(st.keep, st.flow, if keeps == [] then [st.keep] else keeps, ExitFlows(first, s1), i, j, e.x, e.kind);
  }

  lemma EndClean(st: State, first: Paths, s1: State, e: Site)
    requires Passed(st, first, s1, e) && Owned(Inside(e.kind)) && !s1.terminated
    requires !Doomed(LeaveLoop(st.keep, st.flow, first, s1), e.x, e.kind)
    ensures !Doomed(s1, e.x, e.kind)
  {
    ExitsAre(st, first, s1, e);
    if Doomed(s1, e.x, e.kind) { DoomedAfter(st, first, s1, 1, 1, e); }
  }

  /** A bad exit: then the owner was deleted on the way in and on every recorded way out. */
  lemma ExitsClean(st: State, first: Paths, s1: State, e: Site)
    requires Passed(st, first, s1, e) && Owned(Inside(e.kind))
    requires !Doomed(LeaveLoop(st.keep, st.flow, first, s1), e.x, e.kind)
    requires !CleanFlows(Last(s1.breakFlows), e.x, e.kind)
    ensures e.kind == RawOwner && e.x in st.keep && st.keep[e.x] == Deleted && AllDeleted(Last(s1.breakKeeps), e.x)
  {
    hide Located, Ready, Frame, LeaveLoop, AddPath, FlowOk, ExitKeeps, ExitFlows, Doomed;
    ExitsAre(st, first, s1, e);
    ExitsKnown(st, first, s1, e);
    var n := |AddPath(first, s1).keeps|;
    var j :| 0 <= j < |Last(s1.breakFlows)| && Bad(e.kind, Last(s1.breakFlows)[j][e.x]);
    if e.kind == Task || st.keep[e.x] != Deleted {
      DoomedAfter(st, first, s1, 0, n + j, e);
    } else if !AllDeleted(Last(s1.breakKeeps), e.x) {
      var i :| 0 <= i < |Last(s1.breakKeeps)|
               && !(e.x in Last(s1.breakKeeps)[i] && Last(s1.breakKeeps)[i][e.x] == Deleted);
      DoomedAfter(st, first, s1, n + i, n + j, e);
    }
  }

  /** The heart of the loop argument: what is right after the loop is right before the next
      turn too, because the state after the loop covers both and is not doomed. */
  lemma TurnBack(st: State, first: Paths, s1: State, m: Store, n: Store, e: Site,
                 still: bool, untouched: bool, kept: bool)
    requires Passed(st, first, s1, e) && Before(st, m, e)
    requires Unmoved(st, m, n, e, still, untouched)
    requires e.kind == RawOwner ==> !untouched ==> !e.terms.nulled
    requires e.kind == RawOwner && st.keep[e.x] == Deleted ==> kept || still || Unchanged(m, n, e.x)
    requires var r := LeaveLoop(st.keep, st.flow, first, s1);
             && !Doomed(r, e.x, e.kind)
             && (e.kind != Exception ==> FlowHolds(e.kind, r.flow[e.x], n, e.x, e.blind))
             && (e.kind == RawOwner && kept ==> KeepHolds(r.keep[e.x], n, e.x))
    ensures Right(st.keep, st.flow, e.x, e.kind, n, e.blind)
  {
    var r := LeaveLoop(st.keep, st.flow, first, s1);
    if Owned(Inside(e.kind)) {
      LeaveAbove(st, first, s1, e);
    }
  }

  /** The state after a loop tested at the top is above the state before it. */
  lemma LeaveAbove(st: State, first: Paths, s1: State, e: Site)
    requires Passed(st, first, s1, e) && Owned(Inside(e.kind))
    ensures var r := LeaveLoop(st.keep, st.flow, first, s1);
            && FlowBelow(st.flow[e.x], r.flow[e.x])
            && (e.kind == RawOwner ==> KeepBelow(st.keep[e.x], r.keep[e.x]))
            && (e.kind == RawOwner && st.keep[e.x] != Deleted ==> r.keep[e.x] != Deleted)
  {
    ExitsKnown(st, first, s1, e);
    var keeps, flows := ExitKeeps(first, s1), ExitFlows(first, s1);
    assert keeps[0] == st.keep && flows[0] == st.flow;
    RegularPaths(e.x, st.flow[e.x], flows, e.kind, e.terms.nulled);
    JoinFlowIsLeast(e.x, st.flow[e.x], flows);
    assert FlowBelow(FlowAt(flows[0], e.x, st.flow[e.x]), JoinFlow(e.x, st.flow[e.x], flows));
    if e.kind == RawOwner {
      JoinKeepIsLeast(e.x, st.keep[e.x], keeps);
      assert KeepBelow(KeepAt(keeps[0], e.x, st.keep[e.x]), JoinKeep(e.x, st.keep[e.x], keeps));
    }
  }

  /** At the loop test: right about the state before the loop and about the state after it. */
  ghost predicate AtTest(st: State, r: State, m: Store, e: Site) {
    Before(st, m, e) && Right(r.keep, r.flow, e.x, e.kind, m, e.blind)
  }

  /** How one turn of a loop can end. */
  ghost predicate Turned(st: State, r: State, q: Run, e: Site) {
    match q.outcome
    case Normal | Continued => AtTest(st, r, q.store, e)
    case Broke => Right(r.keep, r.flow, e.x, e.kind, q.store, e.blind)
    case _ => Outcomes(st, r, q, e, Never)
  }

  /** What is known of a loop when a turn starts. */
  ghost predicate Turning(body: Stmts, st: State, first: Paths, s1: State, m: Store, e: Site) {
    var passed, before := Passed(st, first, s1, e), Before(st, m, e);
    && passed && before && (e.kind == RawOwner ==> LoopMayChange(body, e.x, e.terms))
    && !Doomed(LeaveLoop(st.keep, st.flow, first, s1), e.x, e.kind)
  }

  lemma TurnEnds(body: Stmts, st: State, first: Paths, s1: State, m: Store, q: Run, e: Site)
    requires Turning(body, st, first, s1, m, e)
    requires Sound(EnterLoop(st), s1, m, q, Inner(body, st, e), !MentionsAll(body, e.x, Assigning),
                   !MentionsAll(body, e.x, Changing), ResumeAll(body, e.x))
    ensures Turned(st, LeaveLoop(st.keep, st.flow, first, s1), q, e)
    ensures Unmoved(st, m, q.store, e, !MentionsAll(body, e.x, Assigning), !MentionsAll(body, e.x, Changing))
  {
    hide Located, Coherent, ExitsCoherent, Right, MentionsAll, ResumeAll, LeaveLoop, Ready, Frame, LoopMayChange;
    match q.outcome
    case Normal => TurnNormal(body, st, first, s1, m, q, e);
    case Continued => TurnContinued(body, st, first, s1, m, q, e);
    case Broke => TurnBroke(body, st, first, s1, m, q, e);
    case _ =>
  }

  lemma TurnNormal(body: Stmts, st: State, first: Paths, s1: State, m: Store, q: Run, e: Site)
    requires Turning(body, st, first, s1, m, e)
    requires Sound(EnterLoop(st), s1, m, q, Inner(body, st, e), !MentionsAll(body, e.x, Assigning),
                   !MentionsAll(body, e.x, Changing), ResumeAll(body, e.x))
    requires q.outcome == Normal
    ensures Turned(st, LeaveLoop(st.keep, st.flow, first, s1), q, e)
  {
    hide Located, Coherent, ExitsCoherent, MentionsAll, ResumeAll, LeaveLoop, Ready, Frame, Right, FlowHolds,
         KeepHolds;
    EndIs(st, first, s1, e);
    var i := |first.keeps|;
    RightParts(s1.keep, s1.flow, q.store, e);
    LeaveRight(st, first, s1, i, i, q.store, e);
    var r := LeaveLoop(st.keep, st.flow, first, s1);
    RightParts(r.keep, r.flow, q.store, e);
    TurnBack(st, first, s1, m, q.store, e, !MentionsAll(body, e.x, Assigning), !MentionsAll(body, e.x, Changing), true);
    NextTurn(st, r, m, q.store, e, !MentionsAll(body, e.x, Assigning), !MentionsAll(body, e.x, Changing));
  }

  lemma EndIs(st: State, first: Paths, s1: State, e: Site)
    requires Passed(st, first, s1, e) && !s1.terminated
    ensures |first.keeps| < |ExitKeeps(first, s1)| && ExitKeeps(first, s1)[|first.keeps|] == s1.keep
    ensures |first.keeps| < |ExitFlows(first, s1)| && ExitFlows(first, s1)[|first.keeps|] == s1.flow
  {
  }

  lemma RightParts(keep: KeepMap, flow: FlowMap, m: Store, e: Site)
    requires Right(keep, flow, e.x, e.kind, m, e.blind)
    ensures e.x in flow && FlowHolds(e.kind, flow[e.x], m, e.x, e.blind)
    ensures e.kind == RawOwner ==> e.x in keep && KeepHolds(keep[e.x], m, e.x)
  {
  }

  lemma NextTurn(st: State, r: State, m: Store, n: Store, e: Site, still: bool, untouched: bool)
    requires Before(st, m, e) && Unmoved(st, m, n, e, still, untouched)
    requires Right(st.keep, st.flow, e.x, e.kind, n, e.blind) && Right(r.keep, r.flow, e.x, e.kind, n, e.blind)
    ensures AtTest(st, r, n, e)
  {
  }

  lemma TurnContinued(body: Stmts, st: State, first: Paths, s1: State, m: Store, q: Run, e: Site)
    requires Turning(body, st, first, s1, m, e)
    requires Sound(EnterLoop(st), s1, m, q, Inner(body, st, e), !MentionsAll(body, e.x, Assigning),
                   !MentionsAll(body, e.x, Changing), ResumeAll(body, e.x))
    requires q.outcome == Continued
    ensures Turned(st, LeaveLoop(st.keep, st.flow, first, s1), q, e)
  {
    hide Located, Coherent, ExitsCoherent, MentionsAll, ResumeAll, LeaveLoop, Ready, Frame, Right, FlowHolds,
         KeepHolds;
    var r := LeaveLoop(st.keep, st.flow, first, s1);
    RightShape(st.keep, st.flow, m, e);
    var j := RightExitAt(first, s1, q.store, e);
    if e.kind != Exception { LeaveFlowRight(st, first, s1, j, q.store, e); }
    TurnBack(st, first, s1, m, q.store, e, !MentionsAll(body, e.x, Assigning), !MentionsAll(body, e.x, Changing),
             false);
    if Owned(Inside(e.kind)) {
      ExitsAre(st, first, s1, e);
      RightParts(st.keep, st.flow, q.store, e);
      LeaveRight(st, first, s1, 0, 0, q.store, e);
    } else {
      LeaveRight(st, first, s1, 0, j, q.store, e);
    }
    NextTurn(st, r, m, q.store, e, !MentionsAll(body, e.x, Assigning), !MentionsAll(body, e.x, Changing));
  }

  /** The place among all exits of a recorded value state that is right. */
  lemma RightExitAt(first: Paths, s1: State, m: Store, e: Site) returns (j: nat)
    requires |s1.breakFlows| > 0 && RightExit(Last(s1.breakFlows), m, e)
    ensures j < |ExitFlows(first, s1)| && e.x in ExitFlows(first, s1)[j]
    ensures FlowHolds(e.kind, ExitFlows(first, s1)[j][e.x], m, e.x, e.blind)
  {
    hide FlowHolds;
    var j' :| 0 <= j' < |Last(s1.breakFlows)| && e.x in Last(s1.breakFlows)[j'] &&
              FlowHolds(e.kind, Last(s1.breakFlows)[j'][e.x], m, e.x, e.blind);
    j := |AddPath(first, s1).flows| + j';
    assert ExitFlows(first, s1)[j] == Last(s1.breakFlows)[j'];
  }

  lemma RightKeepAt(first: Paths, s1: State, m: Store, e: Site) returns (i: nat)
    requires |s1.breakKeeps| > 0 && RightKeep(Last(s1.breakKeeps), m, e)
    ensures i < |ExitKeeps(first, s1)| && e.x in ExitKeeps(first, s1)[i]
            && KeepHolds(ExitKeeps(first, s1)[i][e.x], m, e.x)
  {
    hide KeepHolds;
    var i' :| 0 <= i' < |Last(s1.breakKeeps)| && e.x in Last(s1.breakKeeps)[i'] &&
              KeepHolds(Last(s1.breakKeeps)[i'][e.x], m, e.x);
    i := |AddPath(first, s1).keeps| + i';
    assert ExitKeeps(first, s1)[i] == Last(s1.breakKeeps)[i'];
  }

  lemma TurnBroke(body: Stmts, st: State, first: Paths, s1: State, m: Store, q: Run, e: Site)
    requires Turning(body, st, first, s1, m, e)
    requires Sound(EnterLoop(st), s1, m, q, Inner(body, st, e), !MentionsAll(body, e.x, Assigning),
                   !MentionsAll(body, e.x, Changing), ResumeAll(body, e.x))
    requires q.outcome == Broke
    ensures Turned(st, LeaveLoop(st.keep, st.flow, first, s1), q, e)
  {
    hide Located, Coherent, ExitsCoherent, MentionsAll, ResumeAll, LeaveLoop, Ready, Frame, Right, FlowHolds,
         KeepHolds;
    var j := RightExitAt(first, s1, q.store, e);
    var i: nat := 0;
    if e.kind == RawOwner { i := RightKeepAt(first, s1, q.store, e); }
    LeaveRight(st, first, s1, i, j, q.store, e);
  }

  /** One turn, from any store the loop test can see. */
  lemma {:induction false} SoundTurn(body: Stmts, first: Paths, cs: seq<Choice>, m: Store, st: State, e: Site)
    requires ResolvedAll(body, e.x, Inside(e.kind)) && CoveredAll(body, e.x, Inside(e.kind), e.terms)
    requires SteadyAll(body, e.x, e.kind, e.terms.nulled)
    requires e.kind == RawOwner ==> LoopMayChange(body, e.x, e.terms)
    requires (FirstExits(first, st, e.kind) || JustLooks(body, first, e)) && Before(st, m, e)
    requires Quiet(st, CheckLoop(body, first, st)) && !Doomed(CheckLoop(body, first, st), e.x, e.kind)
    requires Readable(e, MentionsAll(body, e.x, Reading))
    ensures Turned(st, CheckLoop(body, first, st), RunBlock(body, cs, m), e)
    ensures Unmoved(st, m, RunBlock(body, cs, m).store, e, !MentionsAll(body, e.x, Assigning),
                    !MentionsAll(body, e.x, Changing))
    decreases |cs|, body, 3
  {
    hide Located, Coherent, Right, Outcomes, Unmoved, Passed, Turned, CheckBlock, RunBlock, LeaveLoop, MentionsAll,
         ResumeAll, ResolvedAll, CoveredAll, ExitsGood, LoopMayChange;
    var s0 := EnterLoop(st);
    var s1 := CheckBlock(body, s0);
    if FirstExits(first, st, e.kind) {
      LoopPasses(body, first, st, e);
      InnerGood(body, st, first, s1, e);
      TurnAsks(body, st, first, s1, m, e);
      SoundBlock(body, cs, m, s0, Inner(body, st, e));
      TurnEnds(body, st, first, s1, m, RunBlock(body, cs, m), e);
    } else {
      LookingAsks(body, st, m, e);
      SoundBlock(body, cs, m, s0, Inner(body, st, e));
      LookingEnds(body, st, m, RunBlock(body, cs, m), e);
    }
  }

  lemma LookingAsks(body: Stmts, st: State, m: Store, e: Site)
    requires ResolvedAll(body, e.x, Inside(e.kind)) && JustLooks(body, Paths([], []), e)
    requires Before(st, m, e) && Readable(e, MentionsAll(body, e.x, Reading))
    requires Quiet(st, CheckLoop(body, Paths([], []), st)) && !Doomed(CheckLoop(body, Paths([], []), st), e.x, e.kind)
    ensures Ask(EnterLoop(st), CheckBlock(body, EnterLoop(st)), m, Inner(body, st, e),
                !MentionsAll(body, e.x, Assigning),
                ResumeAll(body, e.x), MentionsAll(body, e.x, Reading))
  {
    hide MentionsAll, ResumeAll, ResolvedAll, Right, CheckBlock, TopGrows, Only, LeaveLoop;
    var s0 := EnterLoop(st);
    var s1 := CheckBlock(body, s0);
    EnterLoopLocated(st, e.x, e.kind, e.lv, e.terms.nulled);
    BlockGrows(body, s0);
    LoopUntouched(body, Paths([], []), st, e.x, e.kind, e.lv);
    BlockUntouched(body, s0, e.x, e.kind, e.lv);
    ChangesLessAll(body, e.x);
    LookingGood(body, st, s1, e);
    LeaveReports(st, Paths([], []), s1);
  }

  lemma LookingGood(body: Stmts, st: State, s1: State, e: Site)
    requires Owned(Inside(e.kind)) && !Doomed(st, e.x, e.kind) && !MentionsAll(body, e.x, Assigning)
    requires Ready(st) && Ready(s1) && Frame(EnterLoop(st), s1) && Untouched(EnterLoop(st), s1, e.x, e.kind)
    ensures Good(s1, Inner(body, st, e))
  {
    hide MentionsAll;
    assert NewFlows(EnterLoop(st), s1) == Last(s1.breakFlows);
  }

  lemma LookingEnds(body: Stmts, st: State, m: Store, q: Run, e: Site)
    requires ResolvedAll(body, e.x, Inside(e.kind)) && JustLooks(body, Paths([], []), e) && Before(st, m, e)
    requires Sound(EnterLoop(st), CheckBlock(body, EnterLoop(st)), m, q, Inner(body, st, e),
                   !MentionsAll(body, e.x, Assigning),
                   !MentionsAll(body, e.x, Changing), ResumeAll(body, e.x))
    ensures Turned(st, CheckLoop(body, Paths([], []), st), q, e)
    ensures Unmoved(st, m, q.store, e, !MentionsAll(body, e.x, Assigning), !MentionsAll(body, e.x, Changing))
  {
    hide MentionsAll, ResumeAll, ResolvedAll, Right, CheckBlock, CheckLoop, Coherent, FlowHolds, Distinct, Safe;
    var r := CheckLoop(body, Paths([], []), st);
    RightShape(st.keep, st.flow, m, e);
    if q.outcome in {Normal, Continued, Broke} {
      LoopUntouched(body, Paths([], []), st, e.x, e.kind, e.lv);
      RightUnchanged(st.keep, st.flow, st.keep, st.flow, e.x, e.kind, m, q.store, e.blind);
      RightUnchanged(st.keep, st.flow, r.keep, r.flow, e.x, e.kind, m, q.store, e.blind);
    }
  }

  lemma RightShape(keep: KeepMap, flow: FlowMap, m: Store, e: Site)
    requires Right(keep, flow, e.x, e.kind, m, e.blind)
    ensures e.x in m.env && e.x in flow && SameEntries(keep, flow, keep, flow, e.x, e.kind)
  {
  }

  lemma TurnAsks(body: Stmts, st: State, first: Paths, s1: State, m: Store, e: Site)
    requires Passed(st, first, s1, e) && Before(st, m, e) && Good(s1, Inner(body, st, e))
    requires e.kind == RawOwner ==> LoopMayChange(body, e.x, e.terms)
    requires Quiet(st, LeaveLoop(st.keep, st.flow, first, s1)) && Readable(e, MentionsAll(body, e.x, Reading))
    ensures Ask(EnterLoop(st), s1, m, Inner(body, st, e), !MentionsAll(body, e.x, Assigning), ResumeAll(body, e.x),
                MentionsAll(body, e.x, Reading))
  {
    hide MentionsAll, ResumeAll, Right, ExitsGood, ExitsCoherent;
    EnterLoopLocated(st, e.x, e.kind, e.lv, e.terms.nulled);
  }

  /** From the loop test on, for any number of turns. */
  lemma {:induction false} SoundLoop(body: Stmts, first: Paths, cs: seq<Choice>, m: Store, st: State, e: Site)
    requires ResolvedAll(body, e.x, Inside(e.kind)) && CoveredAll(body, e.x, Inside(e.kind), e.terms)
    requires SteadyAll(body, e.x, e.kind, e.terms.nulled)
    requires e.kind == RawOwner ==> LoopMayChange(body, e.x, e.terms)
    requires (FirstExits(first, st, e.kind) || JustLooks(body, first, e))
             && AtTest(st, CheckLoop(body, first, st), m, e)
    requires Quiet(st, CheckLoop(body, first, st)) && !Doomed(CheckLoop(body, first, st), e.x, e.kind)
    requires Readable(e, MentionsAll(body, e.x, Reading))
    ensures Sound(st, CheckLoop(body, first, st), m, RunLoop(body, cs, m), e,
                  !MentionsAll(body, e.x, Assigning), !MentionsAll(body, e.x, Changing), Never)
    decreases |cs|, body, 4
  {
    hide Right, Located, Coherent, Outcomes, Unmoved, Turned, CheckLoop, RunBlock, MentionsAll, ResumeAll,
         ResolvedAll, CoveredAll, LoopMayChange, Doomed, FirstExits, JustLooks;
    if |cs| > 0 && cs[0].Pick? && cs[0].n != 0 {
      var q := RunBlock(body, cs[1..], m);
      SoundTurn(body, first, cs[1..], m, st, e);
      SoundAgain(body, first, q, cs[1..], m, st, e);
    } else if |cs| == 0 || !cs[0].Pick? {
      SoundCut(st, CheckLoop(body, first, st), m, cs, e, !MentionsAll(body, e.x, Assigning),
               !MentionsAll(body, e.x, Changing), Never);
    } else {
      LoopSkipped(body, first, st, m, cs[1..], e, !MentionsAll(body, e.x, Assigning),
                  !MentionsAll(body, e.x, Changing));
    }
  }

  /** The loop test fails. */
  lemma LoopSkipped(body: Stmts, first: Paths, st: State, m: Store, cs: seq<Choice>, e: Site, still: bool,
                    untouched: bool)
    requires AtTest(st, CheckLoop(body, first, st), m, e)
    ensures Sound(st, CheckLoop(body, first, st), m, Run(Normal, cs, m), e, still, untouched, Never)
  {
    hide CheckBlock;
  }

  /** After a turn. */
  lemma {:induction false} SoundAgain(body: Stmts, first: Paths, q: Run, cs: seq<Choice>, m: Store, st: State, e: Site)
    requires ResolvedAll(body, e.x, Inside(e.kind)) && CoveredAll(body, e.x, Inside(e.kind), e.terms)
    requires SteadyAll(body, e.x, e.kind, e.terms.nulled)
    requires e.kind == RawOwner ==> LoopMayChange(body, e.x, e.terms)
    requires (FirstExits(first, st, e.kind) || JustLooks(body, first, e)) && Before(st, m, e)
    requires Quiet(st, CheckLoop(body, first, st)) && !Doomed(CheckLoop(body, first, st), e.x, e.kind)
    requires Readable(e, MentionsAll(body, e.x, Reading))
    requires Turned(st, CheckLoop(body, first, st), q, e) && |q.rest| <= |cs|
    requires Unmoved(st, m, q.store, e, !MentionsAll(body, e.x, Assigning), !MentionsAll(body, e.x, Changing))
    ensures Sound(st, CheckLoop(body, first, st), m, RunAgain(body, q, cs), e,
                  !MentionsAll(body, e.x, Assigning), !MentionsAll(body, e.x, Changing), Never)
    decreases |cs|, body, 5
  {
    if q.outcome == Normal || q.outcome == Continued {
      SoundLoop(body, first, q.rest, q.store, st, e);
      UnmovedThen(st, st, m, q.store, RunLoop(body, q.rest, q.store).store, e,
                  !MentionsAll(body, e.x, Assigning), !MentionsAll(body, e.x, Assigning),
                  !MentionsAll(body, e.x, Changing), !MentionsAll(body, e.x, Changing));
    }
  }

  lemma {:induction false} SoundWhile(body: Stmts, cs: seq<Choice>, m: Store, st: State, e: Site)
    requires Resolved(While(body), e.x, Inside(e.kind)) && Covered(While(body), e.x, Inside(e.kind), e.terms)
    requires Ask(st, Check(While(body), st), m, e, !MentionsAll(body, e.x, Assigning), Never,
                 MentionsAll(body, e.x, Reading))
    ensures Sound(st, Check(While(body), st), m, RunLoop(body, cs, m), e,
                  !MentionsAll(body, e.x, Assigning), !MentionsAll(body, e.x, Changing), Never)
    decreases |cs|, body, 6
  {
    hide Outcomes, Unmoved, Only, TopGrows, CheckBlock, RunLoop, MentionsAll, ResumeAll, ResolvedAll, CoveredAll,
         LoopMayChange, Shaped;
    var first := Paths([st.keep], [st.flow]);
    var s1 := CheckBlock(body, EnterLoop(st));
    var e' := Past(e, MentionsAll(body, e.x, Nulling));
    LoopTerms(While(body), body, e);
    PastBefore(st, m, e, MentionsAll(body, e.x, Nulling));
    LoopPasses(body, first, st, e');
    assert ExitKeeps(first, s1)[0] == st.keep && ExitFlows(first, s1)[0] == st.flow;
    LeaveRight(st, first, s1, 0, 0, m, e');
    SoundLoop(body, first, cs, m, st, e');
    PastSound(st, CheckLoop(body, first, st), m, RunLoop(body, cs, m), e, MentionsAll(body, e.x, Nulling),
              !MentionsAll(body, e.x, Assigning), !MentionsAll(body, e.x, Changing), Never);
  }

  /** The body of a loop is covered with what the whole loop may do. */
  lemma LoopTerms(s: Stmt, body: Stmts, e: Site)
    requires s == While(body) || s == DoWhile(body)
    requires Resolved(s, e.x, Inside(e.kind)) && Covered(s, e.x, Inside(e.kind), e.terms)
    ensures var e' := Past(e, MentionsAll(body, e.x, Nulling));
            && ResolvedAll(body, e.x, Inside(e.kind)) && CoveredAll(body, e.x, Inside(e.kind), e'.terms)
            && SteadyAll(body, e.x, e.kind, e'.terms.nulled)
            && (s.While? && e.kind == RawOwner ==> LoopMayChange(body, e.x, e'.terms))
            && (s.DoWhile? && Owned(Inside(e.kind)) ==> !MentionsAll(body, e.x, Changing))
  {
    hide MentionsAll, CoveredAll, ResolvedAll, BottomsLookAll, LoopMayChange;
    StmtSteady(s, e);
  }

  lemma {:induction false} SoundDoWhile(body: Stmts, cs: seq<Choice>, m: Store, st: State, e: Site)
    requires Resolved(DoWhile(body), e.x, Inside(e.kind)) && Covered(DoWhile(body), e.x, Inside(e.kind), e.terms)
    requires Ask(st, Check(DoWhile(body), st), m, e, !MentionsAll(body, e.x, Assigning), Never,
                 MentionsAll(body, e.x, Reading))
    ensures Sound(st, Check(DoWhile(body), st), m, RunAgain(body, RunBlock(body, cs, m), cs), e,
                  !MentionsAll(body, e.x, Assigning), !MentionsAll(body, e.x, Changing), Never)
    decreases |cs|, body, 6
  {
    hide CheckLoop, RunBlock, RunAgain, MentionsAll, ResumeAll, ResolvedAll, CoveredAll, Outcomes, Unmoved, Right,
         Located, Coherent, Turned;
    var e', first := Past(e, MentionsAll(body, e.x, Nulling)), Paths([], []);
    LoopTerms(DoWhile(body), body, e);
    PastBefore(st, m, e, MentionsAll(body, e.x, Nulling));
    LoopEnds(body, first, st);
    ChangesLessAll(body, e.x);
    ResumeIffAll(body, e.x);
    SoundTurn(body, first, cs, m, st, e');
    SoundAgain(body, first, RunBlock(body, cs, m), cs, m, st, e');
    PastSound(st, CheckLoop(body, first, st), m, RunAgain(body, RunBlock(body, cs, m), cs), e,
              MentionsAll(body, e.x, Nulling),
              !MentionsAll(body, e.x, Assigning), !MentionsAll(body, e.x, Changing), Never);
  }

  // ---- Try ----

  /** A try may change plain locals; at an owner or a task it only looks. */
  ghost predicate TryAsks(st: State, r: State, m: Store, e: Site, still: bool, continues: Resumes, untouched: bool) {
    var before, fits := Before(st, m, e), WatchFits(st, e, still, continues);
    && before && Quiet(st, r) && ExitsGood(r, e) && fits
    && (Owned(Inside(e.kind)) ==> untouched && !Doomed(st, e.x, e.kind))
  }

  /** Entry of a catch clause: whatever the body did, the tables from before it are right. */
  lemma CatchBefore(st: State, s1: State, m: Store, n: Store, e: Site, s: bool, u: bool)
    requires Before(st, m, e) && Unmoved(st, m, n, e, s, u) && (Owned(Inside(e.kind)) ==> u)
    requires Located(s1, e.x, Inside(e.kind), e.lv)
    ensures Before(EnterBranch(st.keep, st.flow, s1), n, e)
  {
  }

  /** The paths of a try that only looks are as undoomed as the state before it. */
  lemma NoneDoomed(st: State, p: Paths, e: Site)
    requires |p.keeps| == |p.flows|
    requires Owned(Inside(e.kind)) ==> !Doomed(st, e.x, e.kind) && SamePaths(st.keep, st.flow, p, e.x, e.kind)
    ensures CleanPaths(p, e)
  {
  }

  /** The tables and paths of the parts of a try. */
  lemma GuardedParts(s: Stmt, st: State, s1: State, p1: Paths, s2: State, p: Paths, e: Site)
    requires s.Try? && Located(st, e.x, Inside(e.kind), e.lv) && Coherent(st, e.x, e.kind, e.terms.nulled)
             && !st.terminated
    requires Quiet(st, CheckGuarded(s, st))
    requires Resolved(s, e.x, Inside(e.kind)) && Covered(s, e.x, Inside(e.kind), e.terms)
    requires s1 == CheckBlock(s.body, st) && p1 == AddPath(Paths([], []), s1)
    requires (s2, p) == CheckArms(Catches, s.handlers, {}, st.keep, st.flow, s1, p1)
    ensures CheckGuarded(s, st) == Rejoin(st.keep, st.flow, p, p.keeps == [], s2)
    ensures Located(s1, e.x, Inside(e.kind), e.lv)
    ensures Ready(s1) && Frame(st, s1) && Ready(s2) && Frame(s1, s2) && Quiet(st, s1) && Quiet(s1, s2)
    ensures p1.keeps <= p.keeps && p1.flows <= p.flows && |p1.keeps| == |p1.flows| && |p.keeps| == |p.flows|
    ensures PathsOk(p, e.x, e.kind, e.terms.nulled)
  {
    hide CheckBlock, CheckArms, CheckFinally, MentionsAll, MentionsArms, MentionsElse, Right, TopGrows, Only;
    assert EnterBranch(st.keep, st.flow, st) == st;
    BlockGrows(s.body, st);
    ArmsGrow(Catches, s.handlers, {}, st.keep, st.flow, s1, p1);
    QuietSplit(st, s1, s2);
    BlockTracks(s.body, st, e.x, Inside(e.kind), e.lv);
    GuardedPaths(s, st, s1, p1, e);
  }

  lemma TrySteady(s: Stmt, e: Site)
    requires s.Try? && Resolved(s, e.x, Inside(e.kind)) && Covered(s, e.x, Inside(e.kind), e.terms)
    ensures Steady(s, e.x, e.kind, e.terms.nulled)
    ensures SteadyAll(s.body, e.x, e.kind, e.terms.nulled) && SteadyArms(s.handlers, e.x, e.kind, e.terms.nulled)
  {
    hide MentionsAll, MentionsArms, MentionsElse, BottomsLookAll, BottomsLookArms, BottomsLookElse;
    if e.kind == RawOwner {
      CoveredPasses(s, e.x, e.kind, e.terms);
      ChangesLess(s, e.x);
    }
  }

  lemma GuardedPaths(s: Stmt, st: State, s1: State, p1: Paths, e: Site)
    requires s.Try? && Located(st, e.x, Inside(e.kind), e.lv) && Coherent(st, e.x, e.kind, e.terms.nulled)
    requires Resolved(s, e.x, Inside(e.kind)) && Covered(s, e.x, Inside(e.kind), e.terms)
    requires s1 == CheckBlock(s.body, st) && p1 == AddPath(Paths([], []), s1)
    ensures PathsOk(CheckArms(Catches, s.handlers, {}, st.keep, st.flow, s1, p1).1, e.x, e.kind, e.terms.nulled)
  {
    hide CheckBlock, CheckArms, MentionsAll, MentionsArms, MentionsElse, Only;
    TrySteady(s, e);
    BlockSteps(s.body, st, e.x, e.kind, e.lv, e.terms.nulled);
    BlockTracks(s.body, st, e.x, Inside(e.kind), e.lv);
    assert PathsOk(p1, e.x, e.kind, e.terms.nulled);
    LocatedReset(st, s1, e.x, Inside(e.kind), e.lv);
    ArmsSteps(Catches, s.handlers, {}, st.keep, st.flow, s1, p1, e.x, e.kind, e.lv, e.terms.nulled);
  }

  /** An owner or a task has the same entries at the end of the body and on every path. */
  lemma GuardedLooks(s: Stmt, st: State, s1: State, p1: Paths, e: Site)
    requires s.Try? && Located(st, e.x, Inside(e.kind), e.lv) && !st.terminated && Owned(Inside(e.kind))
    requires Resolved(s, e.x, Inside(e.kind)) && !MentionsAll(s.body, e.x, Changing)
             && !MentionsArms(s.handlers, e.x, Changing)
    requires s1 == CheckBlock(s.body, st) && p1 == AddPath(Paths([], []), s1)
    ensures SameEntries(st.keep, st.flow, s1.keep, s1.flow, e.x, e.kind)
    ensures SamePaths(st.keep, st.flow, CheckArms(Catches, s.handlers, {}, st.keep, st.flow, s1, p1).1, e.x, e.kind)
  {
    hide CheckBlock, CheckArms, MentionsAll, MentionsArms, Only;
    BlockUntouched(s.body, st, e.x, e.kind, e.lv);
    BlockTracks(s.body, st, e.x, Inside(e.kind), e.lv);
    LocatedReset(st, s1, e.x, Inside(e.kind), e.lv);
    AddSame(st.keep, st.flow, Paths([], []), s1, e.x, e.kind);
    ArmsUntouched(Catches, s.handlers, {}, st.keep, st.flow, s1, p1, e.x, e.kind, e.lv);
  }

  /** What the body and the catch clauses of a try are asked for. */
  lemma GuardedAsks(s: Stmt, st: State, s1: State, p1: Paths, s2: State, p: Paths, m: Store, e: Site)
    requires s.Try? && Resolved(s, e.x, Inside(e.kind)) && Covered(s, e.x, Inside(e.kind), e.terms)
    requires s1 == CheckBlock(s.body, st) && p1 == AddPath(Paths([], []), s1)
    requires (s2, p) == CheckArms(Catches, s.handlers, {}, st.keep, st.flow, s1, p1)
    requires CheckGuarded(s, st) == Rejoin(st.keep, st.flow, p, p.keeps == [], s2)
    requires Ready(s1) && Ready(s2) && Frame(s1, s2) && Quiet(st, s1) && |p.keeps| == |p.flows|
    requires TryAsks(st, CheckGuarded(s, st), m, e,
                     !MentionsAll(s.body, e.x, Assigning) && !MentionsArms(s.handlers, e.x, Assigning),
                     Most(ResumeAll(s.body, e.x), ResumeArms(s.handlers, e.x)),
                     !MentionsAll(s.body, e.x, Changing) && !MentionsArms(s.handlers, e.x, Changing))
    requires Readable(e, MentionsAll(s.body, e.x, Reading) || MentionsArms(s.handlers, e.x, Reading))
    ensures Ask(st, s1, m, e, !MentionsAll(s.body, e.x, Assigning), ResumeAll(s.body, e.x),
                MentionsAll(s.body, e.x, Reading))
    ensures CleanPaths(p, e) && ExitsGood(s2, e)
    ensures WatchFits(st, e, !MentionsArms(s.handlers, e.x, Assigning), ResumeArms(s.handlers, e.x))
  {
    hide CheckBlock, CheckArms, CheckGuarded, MentionsAll, MentionsArms, MentionsElse, ResumeAll, ResumeArms,
         Right, TopGrows, Only, Coherent, Resolved, Covered, SamePaths, CleanPaths, MergeKeepPaths, MergeFlowPaths,
         Bad;
    if Owned(Inside(e.kind)) { GuardedLooks(s, st, s1, p1, e); }
    NoneDoomed(st, p, e);
    SameWatch(s2, CheckGuarded(s, st), e);
    GoodEarlier(s1, s2, e);
    NotDoomed(st, s1, e);
  }

  lemma SameWatch(a: State, b: State, e: Site)
    requires b.breakFlows == a.breakFlows && b.breakKeeps == a.breakKeeps && ExitsGood(b, e)
    ensures ExitsGood(a, e)
  {
  }

  lemma NotDoomed(a: State, b: State, e: Site)
    requires Owned(Inside(e.kind)) ==>
               !Doomed(a, e.x, e.kind) && SameEntries(a.keep, a.flow, b.keep, b.flow, e.x, e.kind)
    ensures !Doomed(b, e.x, e.kind)
  {
  }

  lemma {:induction false} SoundGuarded(s: Stmt, cs: seq<Choice>, m: Store, st: State, e: Site)
    requires s.Try? && Resolved(s, e.x, Inside(e.kind)) && Covered(s, e.x, Inside(e.kind), e.terms)
    requires TryAsks(st, CheckGuarded(s, st), m, e,
                     !MentionsAll(s.body, e.x, Assigning) && !MentionsArms(s.handlers, e.x, Assigning),
                     Most(ResumeAll(s.body, e.x), ResumeArms(s.handlers, e.x)),
                     !MentionsAll(s.body, e.x, Changing) && !MentionsArms(s.handlers, e.x, Changing))
    requires Readable(e, MentionsAll(s.body, e.x, Reading) || MentionsArms(s.handlers, e.x, Reading))
    ensures Sound(st, CheckGuarded(s, st), m, RunGuarded(s, cs, m), e,
                  !MentionsAll(s.body, e.x, Assigning) && !MentionsArms(s.handlers, e.x, Assigning),
                  !MentionsAll(s.body, e.x, Changing) && !MentionsArms(s.handlers, e.x, Changing),
                  Most(ResumeAll(s.body, e.x), ResumeArms(s.handlers, e.x)))
    decreases |cs|, s, 0
  {
    hide Right, Located, Coherent, Outcomes, Unmoved, CheckBlock, CheckArms, CheckGuarded, RunBlock, RunArm,
         MentionsAll, MentionsArms, ResumeAll, ResumeArms, ResolvedAll, ResolvedArms, CoveredAll, CoveredArms,
         PathsOk, Rejoin, TopGrows, ExitsGood, CleanPaths;
    var s1, r := CheckBlock(s.body, st), RunBlock(s.body, cs, m);
    var p1 := AddPath(Paths([], []), s1);
    var (s2, p) := CheckArms(Catches, s.handlers, {}, st.keep, st.flow, s1, p1);
    GuardedParts(s, st, s1, p1, s2, p, e);
    GuardedAsks(s, st, s1, p1, s2, p, m, e);
    SoundBlock(s.body, cs, m, st, e);
    if r.outcome == Threw && |r.rest| > 0 && r.rest[0].Pick? && r.rest[0].n < Count(s.handlers) {
      CatchBefore(st, s1, m, r.store, e, !MentionsAll(s.body, e.x, Assigning), !MentionsAll(s.body, e.x, Changing));
      CatchAsks(st, s1, s2, p, r.store, e, !MentionsArms(s.handlers, e.x, Assigning), ResumeArms(s.handlers, e.x),
                MentionsArms(s.handlers, e.x, Reading));
      SoundArm(Catches, s.handlers, {}, st.keep, st.flow, s1, p1, s2, p, r.rest[0].n, r.rest[1..], r.store, e);
      GuardedCaught(s, st, s1, s2, p, m, r, RunGuarded(s, cs, m), e, !MentionsAll(s.body, e.x, Assigning),
                    !MentionsAll(s.body, e.x, Changing), !MentionsArms(s.handlers, e.x, Assigning),
                    !MentionsArms(s.handlers, e.x, Changing), ResumeAll(s.body, e.x), ResumeArms(s.handlers, e.x));
    } else {
      GuardedPlain(s, st, s1, s2, p1, p, m, r, RunGuarded(s, cs, m), e, !MentionsAll(s.body, e.x, Assigning),
                   !MentionsAll(s.body, e.x, Changing), !MentionsArms(s.handlers, e.x, Assigning),
                   !MentionsArms(s.handlers, e.x, Changing), ResumeAll(s.body, e.x), ResumeArms(s.handlers, e.x));
    }
  }

  lemma CatchAsks(st: State, s1: State, s2: State, p: Paths, n: Store, e: Site, still: bool, continues: Resumes,
                  looks: bool)
    requires Before(EnterBranch(st.keep, st.flow, s1), n, e) && Quiet(s1, s2) && ExitsGood(s2, e) && CleanPaths(p, e)
    requires WatchFits(st, e, still, continues) && s1.loopDepths == st.loopDepths && Readable(e, looks)
    ensures AskArms(st.keep, st.flow, s1, s2, p, n, e, still, continues, looks)
  {
    hide Right, Located, Coherent, Distinct, Safe, CleanPaths, ExitsGood;
  }

  lemma GuardedCaught(s: Stmt, st: State, s1: State, s2: State, p: Paths, m: Store, r: Run, q: Run, e: Site,
                      s': bool, u': bool, s'': bool, u'': bool, c': Resumes, c'': Resumes)
    requires Coherent(st, e.x, e.kind, e.terms.nulled) && PathsOk(p, e.x, e.kind, e.terms.nulled)
    requires Frame(st, s1) && Unmoved(st, m, r.store, e, s', u') && (Owned(Inside(e.kind)) ==> u')
    requires SoundArms(EnterBranch(st.keep, st.flow, s1), s2, p, r.store, q, e, s'', u'', c'')
    ensures Sound(st, Rejoin(st.keep, st.flow, p, p.keeps == [], s2), m, q, e, s' && s'', u' && u'', Most(c', c''))
  {
    hide Right, Coherent, PathsOk, TopGrows, Distinct, Safe, FlowHolds;
    var a, b := EnterBranch(st.keep, st.flow, st), EnterBranch(st.keep, st.flow, s1);
    ArmsElse(st, s1, s2, p, r.store, q, st.keep, st.flow, e, s'', u'', c'', s', u', c');
    UnmovedThen(a, b, m, r.store, q.store, e, s', s'', u', u'');
    assert SoundArms(a, s2, p, m, q, e, s' && s'', u' && u'', Most(c', c''));
    RejoinSound(st, s2, p, p.keeps == [], m, q, e, s' && s'', u' && u'', Most(c', c''));
  }

  lemma GuardedPlain(s: Stmt, st: State, s1: State, s2: State, p1: Paths, p: Paths, m: Store, r: Run, q: Run, e: Site,
                     s': bool, u': bool, s'': bool, u'': bool, c': Resumes, c'': Resumes)
    requires Coherent(st, e.x, e.kind, e.terms.nulled) && PathsOk(p, e.x, e.kind, e.terms.nulled)
    requires Sound(st, s1, m, r, e, s', u', c')
    requires q == r.(outcome := q.outcome, rest := q.rest)
             && (q.outcome == r.outcome || (r.outcome == Threw && q.outcome == Cut))
    requires Ready(s1) && Ready(s2) && Frame(s1, s2) && p1 == AddPath(Paths([], []), s1)
    requires p1.keeps <= p.keeps && p1.flows <= p.flows
    ensures Sound(st, Rejoin(st.keep, st.flow, p, p.keeps == [], s2), m, q, e, s' && s'', u' && u'', Most(c', c''))
  {
    hide Coherent, PathsOk, Frame, Right, Unmoved, RightExit, RightKeep, MergeKeepPaths, MergeFlowPaths, Frozen,
         Unchanged;
    UnmovedWeaker(st, m, q.store, e, s', u', s' && s'', u' && u'');
    SameUnmoved(st, EnterBranch(st.keep, st.flow, st), m, q.store, e, s' && s'', u' && u'');
    if q.outcome == Normal {
      assert p1.keeps[0] == s1.keep && p1.flows[0] == s1.flow;
      RightPathMore(p1, p, q.store, e);
    } else {
      OutcomesLater(st, s1, s2, q, e, c', c'');
      OutcomesFrom(EnterBranch(st.keep, st.flow, st), st, s2, q, e, c', Most(c', c''));
    }
    RejoinSound(st, s2, p, p.keeps == [], m, q, e, s' && s'', u' && u'', Most(c', c''));
  }

  lemma SameUnmoved(a: State, b: State, m: Store, n: Store, e: Site, still: bool, untouched: bool)
    requires Unmoved(a, m, n, e, still, untouched) && b.keep == a.keep
    ensures Unmoved(b, m, n, e, still, untouched)
  {
  }

  /** In a finally block the reads of `x` are dropped: the run may get there from anywhere. */
  function Blinded(e: Site, outcome: Outcome): Site {
    e.(blind := e.blind || (outcome != Normal && e.kind == Plain))
  }

  /** What the text before a finally block leaves of an owner or a task: nothing changed. */
  ghost predicate Looked(st: State, g: State, m: Store, n: Store, e: Site) {
    Owned(Inside(e.kind)) ==>
      && Right(st.keep, st.flow, e.x, e.kind, m, e.blind)
      && SameEntries(st.keep, st.flow, g.keep, g.flow, e.x, e.kind) && Unchanged(m, n, e.x)
  }

  lemma FinallyBefore(st: State, g: State, m: Store, q: Run, e: Site, s: bool, u: bool, continues: Resumes)
    requires Sound(st, g, m, q, e, s, u, continues) && Looked(st, g, m, q.store, e)
    requires Located(g, e.x, Inside(e.kind), e.lv) && Coherent(g, e.x, e.kind, e.terms.nulled)
    ensures Before(g.(terminated := false, finallyDepth := g.finallyDepth + 1), q.store, Blinded(e, q.outcome))
  {
    SameTables(g, g.(terminated := false, finallyDepth := g.finallyDepth + 1), e.x, Inside(e.kind), e.lv);
    if Owned(Inside(e.kind)) { RightUnchanged(st.keep, st.flow, g.keep, g.flow, e.x, e.kind, m, q.store, e.blind); }
  }

  /** The outcome a finally block passes on still finds the local as it was left. */
  lemma FinallyPasses(st: State, g: State, f0: State, f1: State, m: Store, q: Run, f: Run, e: Site,
                      s: bool, u: bool, c: Resumes, s': bool, u': bool, continues: Resumes)
    requires Sound(st, g, m, q, e, s, u, continues) && q.outcome != Cut
             && (Owned(Inside(e.kind)) ==> u && u' && e.x in q.store.env)
    requires e.kind == RawOwner && s && e.x in st.keep && st.keep[e.x] == Deleted ==>
               e.x in g.keep && g.keep[e.x] == Deleted
    requires f0 == g.(terminated := false, finallyDepth := g.finallyDepth + 1)
    requires Ready(g) && Ready(f1) && Frame(f0, f1)
    requires Sound(f0, f1, q.store, f, Blinded(e, q.outcome), s', u', c)
    ensures var r := f1.(finallyDepth := g.finallyDepth, terminated := f1.terminated || g.terminated);
            Sound(st, r, m, if f.outcome == Normal then f.(outcome := q.outcome) else f, e,
                  s && s', u && u', Most(continues, c))
  {
    hide FlowHolds, Distinct, Safe;
    FinallyUnmoved(st, f0, m, q.store, f.store, e, Blinded(e, q.outcome), s, s', u, u');
    if f.outcome == Normal { FinallyNormal(st, g, f0, f1, q, f, e, s', u', c, continues); }
  }

  lemma FinallyUnmoved(st: State, f0: State, m: Store, n: Store, o: Store, e: Site, e': Site, s: bool, s': bool,
                       u: bool, u': bool)
    requires Unmoved(st, m, n, e, s, u) && Unmoved(f0, n, o, e', s', u') && e' == e.(blind := e'.blind)
    requires e.kind == RawOwner && s && e.x in st.keep && st.keep[e.x] == Deleted ==>
               e.x in f0.keep && f0.keep[e.x] == Deleted
    ensures Unmoved(st, m, o, e, s && s', u && u')
  {
  }

  lemma FinallyNormal(st: State, g: State, f0: State, f1: State, q: Run, f: Run, e: Site, s': bool, u': bool,
                      c: Resumes,
                      continues: Resumes)
    requires Outcomes(st, g, q, e, continues) && q.outcome != Cut && f.outcome == Normal
    requires Owned(Inside(e.kind)) ==> u' && e.x in q.store.env
    requires f0 == g.(terminated := false, finallyDepth := g.finallyDepth + 1)
    requires Ready(g) && Ready(f1) && Frame(f0, f1)
    requires Sound(f0, f1, q.store, f, Blinded(e, q.outcome), s', u', c)
    ensures var r := f1.(finallyDepth := g.finallyDepth, terminated := f1.terminated || g.terminated);
            Outcomes(st, r, f.(outcome := q.outcome), e, Most(continues, c))
  {
    hide Distinct, Safe;
    if q.outcome == Broke || q.outcome == Continued {
      if Owned(Inside(e.kind)) {
        LookedExit(g.breakFlows, f1.breakFlows, g.breakKeeps, f1.breakKeeps, q.store, f.store, e);
      } else {
        ExitKept(g.breakFlows, f1.breakFlows, q.store, f.store, e);
      }
    }
  }

  lemma LookedExit(flows: seq<seq<FlowMap>>, flows': seq<seq<FlowMap>>, keeps: seq<seq<KeepMap>>,
                   keeps': seq<seq<KeepMap>>,
                   m: Store, n: Store, e: Site)
    requires Owned(Inside(e.kind)) && |flows| > 0 && |keeps| > 0 && TopGrows(flows, flows') && TopGrows(keeps, keeps')
    requires Unchanged(m, n, e.x)
    ensures RightExit(Last(flows), m, e) ==> RightExit(Last(flows'), n, e)
    ensures RightKeep(Last(keeps), m, e) ==> RightKeep(Last(keeps'), n, e)
  {
    assert forall j | 0 <= j < |Last(flows)| :: Last(flows')[j] == Last(flows)[j];
    assert forall j | 0 <= j < |Last(keeps)| :: Last(keeps')[j] == Last(keeps)[j];
    assert forall f: Flow :: FlowHolds(e.kind, f, m, e.x, e.blind) ==> FlowHolds(e.kind, f, n, e.x, e.blind);
  }

  lemma ExitKept(flows: seq<seq<FlowMap>>, flows': seq<seq<FlowMap>>, m: Store, n: Store, e: Site)
    requires !Owned(Inside(e.kind)) && |flows| > 0 && TopGrows(flows, flows') && RightExit(Last(flows), m, e)
    requires Shaped(e.kind, n, e.x) && (e.kind == Plain && m.env[e.x].written ==> n.env[e.x].written)
    ensures RightExit(Last(flows'), n, e)
  {
    var j :| 0 <= j < |Last(flows)| && e.x in Last(flows)[j] && FlowHolds(e.kind, Last(flows)[j][e.x], m, e.x, e.blind);
    assert Last(flows')[j] == Last(flows)[j];
  }

  lemma {:induction false} SoundTry(s: Stmt, cs: seq<Choice>, m: Store, st: State, e: Site)
    requires s.Try? && Resolved(s, e.x, Inside(e.kind)) && Covered(s, e.x, Inside(e.kind), e.terms)
    requires Ask(st, CheckTry(s, st), m, e, !Mentions(s, e.x, Assigning), Resume(s, e.x), Mentions(s, e.x, Reading))
    ensures Sound(st, CheckTry(s, st), m, RunTry(s, cs, m), e,
                  !Mentions(s, e.x, Assigning), !Mentions(s, e.x, Changing), Resume(s, e.x))
    decreases |cs|, s, 1
  {
    hide Right, Located, Coherent, Outcomes, Unmoved, CheckBlock, CheckGuarded, CheckFinally, RunGuarded, RunElse,
         MentionsAll, MentionsArms, MentionsElse, ResumeAll, ResumeArms, ResumeElse, ResolvedAll,
         ResolvedArms, ResolvedElse, CoveredAll, CoveredArms, CoveredElse, TopGrows, ExitsGood;
    var o := if Owned(Inside(e.kind)) then e else e.(watch := Off);
    var g, q := CheckGuarded(s, st), RunGuarded(s, cs, m);
    TryParts(s, st, m, e, o);
    SoundGuarded(s, cs, m, st, o);
    if q.outcome != Cut { SoundFinally(s, q, m, st, g, o); }
    else {
      UnmovedWeaker(st, m, q.store, o,
                    !MentionsAll(s.body, e.x, Assigning) && !MentionsArms(s.handlers, e.x, Assigning),
                    !MentionsAll(s.body, e.x, Changing) && !MentionsArms(s.handlers, e.x, Changing),
                    !Mentions(s, e.x, Assigning), !Mentions(s, e.x, Changing));
    }
    SoundTryEnds(st, g, CheckTry(s, st), m, q, RunTry(s, cs, m), e, o, Resume(s, e.x), !Mentions(s, e.x, Assigning),
                 !Mentions(s, e.x, Changing));
  }

  lemma SoundTryEnds(st: State, g: State, r: State, m: Store, q: Run, run: Run, e: Site, o: Site, c: Resumes, s: bool,
                     u: bool)
    requires o == e.(watch := o.watch)
    requires if q.outcome == Cut then run == q && Unmoved(st, m, q.store, o, s, u) else Sound(st, r, m, run, o, s, u, c)
    ensures Sound(st, r, m, run, e, s, u, c)
  {
    hide Distinct, Safe, FlowHolds, KeepHolds;
    if q.outcome != Cut && (run.outcome == Broke || run.outcome == Continued) {
      SameSite(Last(r.breakFlows), run.store, o, e);
    }
  }

  lemma SameSite(flows: seq<FlowMap>, m: Store, e: Site, o: Site)
    requires o == e.(watch := o.watch)
    ensures RightExit(flows, m, e) ==> RightExit(flows, m, o)
  {
  }

  /** A statement after which nothing is reported and no exit is doomed does not start doomed. */
  lemma StmtGood(s: Stmt, st: State, e: Site)
    requires Located(st, e.x, Inside(e.kind), e.lv) && !st.terminated
    requires Resolved(s, e.x, Inside(e.kind)) && Covered(s, e.x, Inside(e.kind), e.terms)
    requires Quiet(st, Check(s, st)) && Good(Check(s, st), e)
             && WatchFits(st, e, !Mentions(s, e.x, Assigning), Resume(s, e.x))
    ensures !Doomed(st, e.x, e.kind)
  {
    hide Check, Resolved, Covered, Mentions, Resume, Doomed, ExitsGood, Located;
    assert CheckAll(Then(s, End), st) == Check(s, st);
    MidGood(Then(s, End), st, e);
  }

  /** The parts of a try. */
  lemma TryParts(s: Stmt, st: State, m: Store, e: Site, o: Site)
    requires s.Try? && Resolved(s, e.x, Inside(e.kind)) && Covered(s, e.x, Inside(e.kind), e.terms)
    requires Ask(st, CheckTry(s, st), m, e, !Mentions(s, e.x, Assigning), Resume(s, e.x), Mentions(s, e.x, Reading))
    requires o == if Owned(Inside(e.kind)) then e else e.(watch := Off)
    ensures var g := CheckGuarded(s, st);
            && Quiet(g, CheckFinally(s.fin, g)) && Ready(g) && Frame(st, g)
            && Located(g, e.x, Inside(e.kind), e.lv) && Coherent(g, e.x, e.kind, e.terms.nulled)
            && ExitsGood(CheckTry(s, st), o) && WatchFits(st, o, !Mentions(s, e.x, Assigning), Resume(s, e.x))
            && TryAsks(st, g, m, o, !MentionsAll(s.body, e.x, Assigning) && !MentionsArms(s.handlers, e.x, Assigning),
                       Most(ResumeAll(s.body, e.x), ResumeArms(s.handlers, e.x)),
                       !MentionsAll(s.body, e.x, Changing) && !MentionsArms(s.handlers, e.x, Changing))
    ensures Owned(Inside(e.kind)) ==>
            SameEntries(st.keep, st.flow, CheckGuarded(s, st).keep, CheckGuarded(s, st).flow, e.x, e.kind)
  {
    hide CheckGuarded, CheckFinally, Right, TopGrows, MentionsAll, MentionsArms, MentionsElse, ResumeAll,
         ResumeArms, ResumeElse, Only, ExitsGood, Coherent;
    var g := CheckGuarded(s, st);
    GuardedGrows(s, st);
    FinallyGrows(s.fin, g);
    QuietSplit(st, g, CheckFinally(s.fin, g));
    GuardedTracks(s, st, e.x, Inside(e.kind), e.lv);
    TrySteady(s, e);
    GuardedSteps(s, st, e.x, e.kind, e.lv, e.terms.nulled);
    if Owned(Inside(e.kind)) {
      GuardedUntouched(s, st, e.x, e.kind, e.lv);
      StmtGood(s, st, e);
      GoodEarlier(g, CheckFinally(s.fin, g), e);
    } else {
      OffGood(g, o);
      OffGood(CheckTry(s, st), o);
    }
  }

  lemma OffGood(st: State, e: Site)
    requires e.watch == Off
    ensures ExitsGood(st, e)
  {
  }

  /** What the finally block is asked for. */
  lemma FinallyAsks(s: Stmt, st: State, g: State, n: Store, e: Site, e': Site)
    requires s.Try? && s.fin.ElseBody? && Resolved(s, e.x, Inside(e.kind)) && Covered(s, e.x, Inside(e.kind), e.terms)
    requires Ready(g) && Frame(st, g) && Located(g, e.x, Inside(e.kind), e.lv)
    requires Owned(Inside(e.kind)) ==>
               !Doomed(st, e.x, e.kind) && SameEntries(st.keep, st.flow, g.keep, g.flow, e.x, e.kind)
    requires e' == e.(blind := e'.blind) && (e'.blind ==> e.kind == Plain)
    requires Before(g.(terminated := false, finallyDepth := g.finallyDepth + 1), n, e')
    requires Quiet(g, CheckFinally(s.fin, g)) && ExitsGood(CheckFinally(s.fin, g), e)
    requires WatchFits(st, e, !Mentions(s, e.x, Assigning), Resume(s, e.x))
    ensures var f0 := g.(terminated := false, finallyDepth := g.finallyDepth + 1);
            Ask(f0, CheckBlock(s.fin.body, f0), n, e', !MentionsAll(s.fin.body, e.x, Assigning),
                ResumeAll(s.fin.body, e.x),
                MentionsAll(s.fin.body, e.x, Reading))
  {
    hide CheckBlock, Right, TopGrows, MentionsAll, MentionsArms, ResumeAll, ResumeArms, Only, Coherent, Distinct, Safe,
         ResolvedAll, ResolvedArms, CoveredAll, CoveredArms, Bad, CleanFlows, AllDeleted, PairOk;
    var f0 := g.(terminated := false, finallyDepth := g.finallyDepth + 1);
    var f1 := CheckBlock(s.fin.body, f0);
    if Owned(Inside(e.kind)) {
      assert !Mentions(s, e.x, Changing);
      assert !MentionsElse(s.fin, e.x, Changing);
      SameTables(g, f0, e.x, Inside(e.kind), e.lv);
      BlockUntouched(s.fin.body, f0, e.x, e.kind, e.lv);
    }
    NotDoomed(st, f1, e);
    FinallyWatch(st, f0, f1, CheckFinally(s.fin, g), e, e', !Mentions(s, e.x, Assigning), Resume(s, e.x),
                 !MentionsAll(s.fin.body, e.x, Assigning), ResumeAll(s.fin.body, e.x));
  }

  lemma FinallyWatch(st: State, f0: State, f1: State, r: State, e: Site, e': Site, s: bool, c: Resumes, s': bool,
                     c': Resumes)
    requires e' == e.(blind := e'.blind) && ExitsGood(r, e) && r.breakFlows == f1.breakFlows
             && r.breakKeeps == f1.breakKeeps
    requires WatchFits(st, e, s, c) && (s ==> s') && Most(c, c') == c && f0.loopDepths == st.loopDepths
    requires e.kind == RawOwner && e.x in st.keep ==> e.x in f0.keep && f0.keep[e.x] == st.keep[e.x]
    ensures ExitsGood(f1, e') && WatchFits(f0, e', s', c')
  {
  }

  lemma {:induction false} SoundFinally(s: Stmt, q: Run, m: Store, st: State, g: State, e: Site)
    requires s.Try? && Resolved(s, e.x, Inside(e.kind)) && Covered(s, e.x, Inside(e.kind), e.terms) && q.outcome != Cut
    requires g == CheckGuarded(s, st) && Quiet(g, CheckFinally(s.fin, g)) && Ready(g) && Frame(st, g)
    requires Located(g, e.x, Inside(e.kind), e.lv) && Coherent(g, e.x, e.kind, e.terms.nulled)
    requires ExitsGood(CheckTry(s, st), e) && WatchFits(st, e, !Mentions(s, e.x, Assigning), Resume(s, e.x))
    requires Before(st, m, e) && Readable(e, Mentions(s, e.x, Reading))
    requires Owned(Inside(e.kind)) ==>
               !Doomed(st, e.x, e.kind) && SameEntries(st.keep, st.flow, g.keep, g.flow, e.x, e.kind)
    requires Sound(st, g, m, q, e, !MentionsAll(s.body, e.x, Assigning) && !MentionsArms(s.handlers, e.x, Assigning),
                   !MentionsAll(s.body, e.x, Changing) && !MentionsArms(s.handlers, e.x, Changing),
                   Most(ResumeAll(s.body, e.x), ResumeArms(s.handlers, e.x)))
    ensures var f := RunElse(s.fin, q.rest, q.store);
            Sound(st, CheckTry(s, st), m, if f.outcome == Normal then f.(outcome := q.outcome) else f, e,
                  !Mentions(s, e.x, Assigning), !Mentions(s, e.x, Changing), Resume(s, e.x))
    decreases |q.rest|, s, 0
  {
    hide Right, Located, Coherent, Outcomes, Unmoved, CheckBlock, CheckGuarded, RunBlock, MentionsAll, MentionsArms,
         ResumeAll, ResumeArms, ResolvedAll, ResolvedArms, CoveredAll, CoveredArms, TopGrows, ExitsGood,
         WatchFits, Doomed, SameEntries, Distinct, Safe;
    var s', u' := !MentionsAll(s.body, e.x, Assigning) && !MentionsArms(s.handlers, e.x, Assigning),
                  !MentionsAll(s.body, e.x, Changing) && !MentionsArms(s.handlers, e.x, Changing);
    if s.fin.ElseBody? {
      var body := s.fin.body;
      var f0 := g.(terminated := false, finallyDepth := g.finallyDepth + 1);
      var f1 := CheckBlock(body, f0);
      LookedAt(st, g, m, q, e, s', u');
      FinallyBefore(st, g, m, q, e, s', u', Most(ResumeAll(s.body, e.x), ResumeArms(s.handlers, e.x)));
      FinallyAsks(s, st, g, q.store, e, Blinded(e, q.outcome));
      BlockGrows(body, f0);
      SoundBlock(body, q.rest, q.store, f0, Blinded(e, q.outcome));
      FinallyPasses(st, g, f0, f1, m, q, RunBlock(body, q.rest, q.store), e, s', u',
                    ResumeAll(body, e.x), !MentionsAll(body, e.x, Assigning), !MentionsAll(body, e.x, Changing),
                    Most(ResumeAll(s.body, e.x), ResumeArms(s.handlers, e.x)));
    }
  }

  lemma LookedAt(st: State, g: State, m: Store, q: Run, e: Site, s: bool, u: bool)
    requires Before(st, m, e) && Unmoved(st, m, q.store, e, s, u) && (Owned(Inside(e.kind)) ==> u)
    requires Owned(Inside(e.kind)) ==> SameEntries(st.keep, st.flow, g.keep, g.flow, e.x, e.kind)
    ensures Looked(st, g, m, q.store, e) && e.x in q.store.env
    ensures e.kind == RawOwner && e.x in st.keep ==> e.x in g.keep && g.keep[e.x] == st.keep[e.x]
  {
  }
}
