/** The other direction of the checker's promise: what it reports about a local, some run
    does.  The walk keeps exactly the standings that runs can bring the local into. */
module FlowPrecision {
  import opened FlowSyntax
  import opened FlowState
  import opened FlowChecker
  import opened FlowFrame
  import opened FlowTracking
  import opened FlowFragment
  import opened FlowCoherence
  import opened FlowDoom
  import opened FlowCells
  import opened FlowSoundness
  import opened FlowTermination
  import opened FlowTheorems
  import opened FlowReach
  import opened FlowStructure
  import opened RunLedger
  import opened Runs

  // ---- The text ----

  /** Text that runs can follow wherever the walk goes: labels fit and differ, a default is
      left a value, the body of a do-while can come to its end, break and continue stand in a
      loop; and there is no try, and `x` is never set to null. */
  ghost predicate Runnable(s: Stmt, x: Id, looped: bool) {
    match s
    case Do(op, y) => y == x ==> op != SetNull
    case Block(body) => RunnableAll(body, x, looped)
    case If(arms, els) => RunnableArms(arms, x, looped) && RunnableElse(els, x, looped)
    case Switch(on, _, arms, els) =>
      && RunnableArms(arms, x, looped) && RunnableElse(els, x, looped)
      && Fit(on, arms) && !Repeats(arms) && (els.ElseBody? ==> !EveryValue(on, arms))
    case While(body) => RunnableAll(body, x, true)
    case DoWhile(body) => RunnableAll(body, x, true) && !StopsAll(body, true)
    case Try(_, _, _) => false
    case Break | Continue => looped
    case _ => true
  }

  ghost predicate RunnableAll(ss: Stmts, x: Id, looped: bool) {
    ss.Then? ==> Runnable(ss.head, x, looped) && RunnableAll(ss.tail, x, looped)
  }

  ghost predicate RunnableArms(arms: Arms, x: Id, looped: bool) {
    arms.Arm? ==> RunnableAll(arms.body, x, looped) && RunnableArms(arms.rest, x, looped)
  }

  ghost predicate RunnableElse(els: Else, x: Id, looped: bool) { els.ElseBody? ==> RunnableAll(els.body, x, looped) }

  // ---- What the tables claim ----

  predicate KeepClaims(k: Keep, w: Standing) { w == if k == Deleted then Done else Owing }

  predicate FlowClaims(kind: Kind, f: Flow, w: Standing) {
    match kind
    case RawOwner => (w == Owing && f.validity == LivePointer) || (w == Done && Dangerous(f.validity))
    case Task => (w == Owing && f.task in {Pending, MaybePending}) || (w == Done && f.task in {Awaited, MaybePending})
    case Plain => w == if f.init == Initialized then Done else Owing
    case Exception => false
  }

  /** The value states of a local that is never null. */
  predicate Sane(kind: Kind, f: Flow) {
    && FlowOk(kind, false, f) && kind != Exception
    && (kind != Plain ==> f.init == Initialized) && (kind == RawOwner ==> f.task == NotTask)
  }

  lemma SomeClaim(kind: Kind, f: Flow) returns (w: Standing)
    requires Sane(kind, f)
    ensures FlowClaims(kind, f, w)
  {
    w := match kind
      case RawOwner => if f.validity == LivePointer then Owing else Done
      case Task => if f.task == Awaited then Done else Owing
      case _ => if f.init == Initialized then Done else Owing;
  }

  /** Every standing the entry claims is reached. */
  ghost predicate EntryShown(kind: Kind, f: Flow, x: Id, N: iset<Store>) {
    Sane(kind, f) && forall w | FlowClaims(kind, f, w) :: Reached(N, w, x, Inside(kind))
  }

  ghost predicate OwnerShown(k: Keep, x: Id, N: iset<Store>) {
    forall w | KeepClaims(k, w) :: Reached(N, w, x, Inside(RawOwner))
  }

  ghost predicate FlowShown(flow: FlowMap, x: Id, k: Status, N: iset<Store>) {
    if k.Inside? then x in flow && EntryShown(k.kind, flow[x], x, N) else Reached(N, Away, x, k)
  }

  ghost predicate KeepShown(keep: KeepMap, x: Id, k: Status, N: iset<Store>) {
    k == Inside(RawOwner) ==> x in keep && OwnerShown(keep[x], x, N)
  }

  ghost predicate Shown(keep: KeepMap, flow: FlowMap, x: Id, k: Status, N: iset<Store>) {
    FlowShown(flow, x, k, N) && KeepShown(keep, x, k, N)
  }

  ghost predicate FlowsShown(flows: seq<FlowMap>, x: Id, k: Status, N: iset<Store>) {
    forall j | 0 <= j < |flows| :: FlowShown(flows[j], x, k, N)
  }

  ghost predicate KeepsShown(keeps: seq<KeepMap>, x: Id, k: Status, N: iset<Store>) {
    forall j | 0 <= j < |keeps| :: KeepShown(keeps[j], x, k, N)
  }

  lemma FlowWider(flow: FlowMap, x: Id, k: Status, from: iset<Store>, to: iset<Store>, ids: set<Id>)
    requires FlowShown(flow, x, k, from) && Wider(from, to, x, k, ids)
    ensures FlowShown(flow, x, Kept(k, x, ids), to)
  {
    hide Reached, Sane;
    if k.Inside? {
      var w := SomeClaim(k.kind, flow[x]);
      assert Reached(from, w, x, k);
      assert forall w | FlowClaims(k.kind, flow[x], w) && x !in ids :: Reached(to, w, x, k) by {
        assert forall w :: Reached(from, w, x, k) ==> Reached(to, Moved(w, x, ids), x, Kept(k, x, ids));
      }
    }
  }

  lemma KeepWider(keep: KeepMap, x: Id, k: Status, from: iset<Store>, to: iset<Store>, ids: set<Id>)
    requires KeepShown(keep, x, k, from) && Wider(from, to, x, k, ids)
    ensures KeepShown(keep, x, Kept(k, x, ids), to)
  {
    hide Reached;
    assert x !in ids ==> forall w :: Reached(from, w, x, k) ==> Reached(to, Moved(w, x, ids), x, Kept(k, x, ids));
  }

  lemma ListsWider(keeps: seq<KeepMap>, flows: seq<FlowMap>, x: Id, k: Status, from: iset<Store>, to: iset<Store>,
                   ids: set<Id>)
    requires FlowsShown(flows, x, k, from) && KeepsShown(keeps, x, k, from) && Wider(from, to, x, k, ids)
    ensures FlowsShown(flows, x, Kept(k, x, ids), to) && KeepsShown(keeps, x, Kept(k, x, ids), to)
  {
    hide FlowShown, KeepShown, Wider;
    forall j | 0 <= j < |flows| ensures FlowShown(flows[j], x, Kept(k, x, ids), to) {
      FlowWider(flows[j], x, k, from, to, ids);
    }
    forall j | 0 <= j < |keeps| ensures KeepShown(keeps[j], x, Kept(k, x, ids), to) {
      KeepWider(keeps[j], x, k, from, to, ids);
    }
  }

  // ---- Joins ----

  lemma MergeOwnerShown(a: Keep, b: Keep, x: Id, N: iset<Store>)
    requires OwnerShown(a, x, N) && OwnerShown(b, x, N)
    ensures OwnerShown(MergeKeep(a, b), x, N)
  {
    hide Reached;
    forall w | KeepClaims(MergeKeep(a, b), w) ensures Reached(N, w, x, Inside(RawOwner)) {
      assert KeepClaims(a, w) || KeepClaims(b, w);
    }
  }

  lemma MergeEntryShown(kind: Kind, a: Flow, b: Flow, x: Id, N: iset<Store>)
    requires EntryShown(kind, a, x, N) && EntryShown(kind, b, x, N)
    ensures EntryShown(kind, MergeFlow(a, b), x, N)
  {
    hide Reached;
    forall w | FlowClaims(kind, MergeFlow(a, b), w) ensures Reached(N, w, x, Inside(kind)) {
      assert FlowClaims(kind, a, w) || FlowClaims(kind, b, w);
    }
  }

  lemma {:induction false} JoinOwnerShown(x: Id, base: Keep, keeps: seq<KeepMap>, N: iset<Store>)
    requires |keeps| > 0 && KeepsShown(keeps, x, Inside(RawOwner), N)
    ensures OwnerShown(JoinKeep(x, base, keeps), x, N)
    decreases |keeps|
  {
    hide OwnerShown, MergeKeep;
    assert KeepShown(Last(keeps), x, Inside(RawOwner), N);
    if |keeps| > 1 {
      JoinOwnerShown(x, base, ButLast(keeps), N);
      MergeOwnerShown(JoinKeep(x, base, ButLast(keeps)), Last(keeps)[x], x, N);
    }
  }

  lemma {:induction false} JoinEntryShown(kind: Kind, x: Id, base: Flow, flows: seq<FlowMap>, N: iset<Store>)
    requires |flows| > 0 && FlowsShown(flows, x, Inside(kind), N)
    ensures EntryShown(kind, JoinFlow(x, base, flows), x, N)
    decreases |flows|
  {
    hide EntryShown, MergeFlow;
    assert FlowShown(Last(flows), x, Inside(kind), N);
    if |flows| > 1 {
      JoinEntryShown(kind, x, base, ButLast(flows), N);
      MergeEntryShown(kind, JoinFlow(x, base, ButLast(flows)), Last(flows)[x], x, N);
    }
  }

  lemma MergeShown(keep: KeepMap, flow: FlowMap, keeps: seq<KeepMap>, flows: seq<FlowMap>, x: Id, k: Status,
                   N: iset<Store>)
    requires |keeps| > 0 && |flows| > 0 && FlowsShown(flows, x, k, N) && KeepsShown(keeps, x, k, N)
    requires (k.Inside? ==> x in flow) && (k == Inside(RawOwner) ==> x in keep)
    ensures Shown(MergeKeepPaths(keep, keeps), MergeFlowPaths(flow, flows), x, k, N)
  {
    hide EntryShown, OwnerShown, Reached, JoinKeep, JoinFlow;
    assert FlowShown(flows[0], x, k, N);
    if k.Inside? { JoinEntryShown(k.kind, x, flow[x], flows, N); }
    if k == Inside(RawOwner) { JoinOwnerShown(x, keep[x], keeps, N); }
  }

  // ---- One visit ----

  /** The harm a report charges the text with, if it charges it with one. */
  predicate Charges(code: Code, fault: FaultKind) {
    match code
    case RawDeleteRequired | TaskNotAwaited | TaskMayNotBeAwaited => fault == Dropped
    case RawOverwrite => fault == Overwritten
    case RawDoubleDelete | DoubleDelete | DeleteExpired | DeleteMaybeInvalid => fault == DoubleFree
    case NullDereference | MaybeNullDereference => fault == NullDereferenced
    case UseAfterDelete | ExpiredDereference | MaybeInvalidDereference => fault == FreedDereferenced
    case TaskDoubleAwait | TaskMaybeDoubleAwait => fault == DoubleAwaited
    case UninitializedRead | MaybeUninitializedRead | DeleteUninitialized | DeleteMaybeUninitialized =>
      fault == UnwrittenRead
    case _ => false
  }

  predicate Tells(d: Diagnostic, x: Id, fault: FaultKind) { d.x == x && Charges(d.code, fault) }

  /** A report between the two states charges the text with this harm to `x`. */
  predicate Named(st: State, r: State, x: Id, fault: FaultKind) {
    exists i :: |st.diagnostics| <= i < |r.diagnostics| && Tells(r.diagnostics[i], x, fault)
  }

  lemma NamedSplit(a: State, b: State, c: State, x: Id, fault: FaultKind)
    requires a.diagnostics <= b.diagnostics <= c.diagnostics && Named(a, c, x, fault)
    ensures Named(a, b, x, fault) || Named(b, c, x, fault)
  {
    var i :| |a.diagnostics| <= i < |c.diagnostics| && Tells(c.diagnostics[i], x, fault);
    if i < |b.diagnostics| { assert b.diagnostics[i] == c.diagnostics[i]; }
  }

  /** What was recorded for the loop around is reached on a way out. */
  ghost predicate ExitsShown(st: State, r: State, x: Id, k: Status, N: iset<Store>) {
    FlowsShown(NewFlows(st, r), x, k, N) && KeepsShown(NewKeeps(st, r), x, k, N)
  }

  /** Declared inside the loop around. */
  predicate Near(st: State, k: Status, lv: int) { k.Inside? && lv >= Depth(st) }

  /** Before a visit: the tables claim only what is reached. */
  ghost predicate Here(st: State, x: Id, k: Status, lv: int, from: iset<Store>) {
    Located(st, x, k, lv) && !st.terminated && Shown(st.keep, st.flow, x, k, from)
  }

  /** What was recorded is reached, and a report that names `x` means that some run harms it. */
  ghost predicate Told(t: Text, st: State, r: State, x: Id, fault: FaultKind, k: Status, k1: Status, near: bool,
                       from: iset<Store>) {
    && ExitsShown(st, r, x, k1, Post(t, from, true))
    && (Named(st, r, x, fault) ==> Harms(t, from, x, fault, k, near))
  }

  /** After it: still only what is reached. */
  ghost predicate Exact(t: Text, st: State, r: State, x: Id, fault: FaultKind, k: Status, k1: Status, near: bool,
                        from: iset<Store>) {
    (!r.terminated ==> Shown(r.keep, r.flow, x, k1, Post(t, from, false)))
        && Told(t, st, r, x, fault, k, k1, near, from)
  }

  // ---- Operations ----

  predicate Claimed(st: State, x: Id, k: Status, w: Standing) {
    match k
    case Outside => w == Away
    case Inside(kind) =>
      (kind == RawOwner && x in st.keep && KeepClaims(st.keep[x], w))
          || (x in st.flow && FlowClaims(kind, st.flow[x], w))
  }

  lemma ClaimReached(st: State, x: Id, k: Status, w: Standing, from: iset<Store>)
    requires Shown(st.keep, st.flow, x, k, from) && Claimed(st, x, k, w)
    ensures Reached(from, w, x, k)
  {
    hide Reached;
  }

  lemma OtherExact(op: Op, y: Id, st: State, x: Id, fault: FaultKind, k: Status, lv: int, from: iset<Store>)
    requires Here(st, x, k, lv, from) && x != y
    ensures Exact(One(Do(op, y)), st, CheckOp(op, y, st), x, fault, k, k, Near(st, k, lv), from)
  {
    var to := Post(One(Do(op, y)), from, false);
    forall w | Reached(from, w, x, k) ensures Reached(to, w, x, k) {
      var m :| m in from && Stands(w, m, x, k);
      OtherStands(op, y, m, w, x, k);
      OpPost(op, y, from, m);
      assert Stands(w, Exec(op, y, m), x, k);
    }
    hide Post, Located, Reached, Exec, Harms;
    OpSilent(op, y, st, x, fault);
    CheckOther(op, y, st, x);
    FlowWider(st.flow, x, k, from, to, {});
    KeepWider(st.keep, x, k, from, to, {});
  }

  /** An operation records nothing, and reports only on its own local. */
  lemma OpSilent(op: Op, y: Id, st: State, x: Id, fault: FaultKind)
    ensures NewFlows(st, CheckOp(op, y, st)) == [] && NewKeeps(st, CheckOp(op, y, st)) == []
    ensures Named(st, CheckOp(op, y, st), x, fault) ==> x == y && !Declares(op)
  {
    hide CheckOp, OpReports;
    OpLists(op, y, st);
    OpReportsName(op, y, st);
    var r := CheckOp(op, y, st);
    assert forall i | |st.diagnostics| <= i < |r.diagnostics| ::
        r.diagnostics[i] == OpReports(op, y, st)[i - |st.diagnostics|];
  }

  lemma OpReportsName(op: Op, x: Id, st: State)
    ensures forall i | 0 <= i < |OpReports(op, x, st)| :: OpReports(op, x, st)[i].x == x
    ensures Declares(op) ==> OpReports(op, x, st) == []
  {
    hide DeleteReports, ReadReports, DerefReports, AwaitReports;
    match op
    case Delete => DeleteReportsName(x, st);
    case Deref => ReadReportsName(x, st);
    case Await => ReadReportsName(x, st);
    case Read => ReadReportsName(x, st);
    case _ =>
  }

  lemma DeleteReportsName(x: Id, st: State)
    ensures forall i | 0 <= i < |DeleteReports(x, st)| :: DeleteReports(x, st)[i].x == x
  {
    hide FlowOf;
  }

  lemma ReadReportsName(x: Id, st: State)
    ensures forall i | 0 <= i < |ReadReports(x, st)| :: ReadReports(x, st)[i].x == x
    ensures forall i | 0 <= i < |ReadReports(x, st) + DerefReports(x, st)| ::
              (ReadReports(x, st) + DerefReports(x, st))[i].x == x
    ensures forall i | 0 <= i < |ReadReports(x, st) + AwaitReports(x, st)| ::
              (ReadReports(x, st) + AwaitReports(x, st))[i].x == x
  {
    hide FlowOf;
  }

  /** What an operation reports bites one of the standings claimed before it. */
  lemma ReportBites(op: Op, x: Id, fault: FaultKind, st: State) returns (w: Standing)
    requires !Declares(op) && x in st.flow && Sane(KindOf(op), st.flow[x])
    requires x in st.keep <==> KindOf(op) == RawOwner
    requires Named(st, CheckOp(op, x, st), x, fault) && op != SetNull
    ensures Claimed(st, x, Inside(KindOf(op)), w) && Bites(op, w) && fault == OpFault(op)
  {
    hide Claimed, Tells, CheckOp, Charges, OpReports, Sane;
    OpLists(op, x, st);
    NamedIs(st, CheckOp(op, x, st), OpReports(op, x, st), x, fault);
    w := ChargeBites(op, x, fault, st);
  }

  lemma ChargeBites(op: Op, x: Id, fault: FaultKind, st: State) returns (w: Standing)
    requires !Declares(op) && x in st.flow && Sane(KindOf(op), st.flow[x]) && op != SetNull
    requires (x in st.keep <==> KindOf(op) == RawOwner) && Mentioned(OpReports(op, x, st), x, fault)
    ensures Claimed(st, x, Inside(KindOf(op)), w) && Bites(op, w) && fault == OpFault(op)
  {
    w := if op in {Delete, Deref, Await} then Done else Owing;
  }

  /** What is claimed after it comes from a standing claimed before. */
  lemma ClaimComes(op: Op, x: Id, st: State, k: Status, v: Standing) returns (w: Standing)
    requires Ready(st) && op != SetNull && k == if Declares(op) then Outside else Inside(KindOf(op))
    requires k.Inside? ==> x in st.flow && Sane(KindOf(op), st.flow[x]) && (x in st.keep <==> KindOf(op) == RawOwner)
    requires k == Outside ==> x !in st.flow && x !in st.keep
    requires Claimed(CheckOp(op, x, st), x, Inside(KindOf(op)), v)
    ensures Claimed(st, x, k, w) && OpMoves(op, w) == v
  {
    if Declares(op) {
      w := Away;
    } else if op == Deref || op == Read {
      w := v;
    } else {
      w := SomeClaim(KindOf(op), st.flow[x]);
    }
  }

  lemma OwnSane(op: Op, x: Id, st: State)
    requires Ready(st) && op != SetNull
    requires !Declares(op) ==>
               x in st.flow && Sane(KindOf(op), st.flow[x]) && (x in st.keep <==> KindOf(op) == RawOwner)
    ensures var r := CheckOp(op, x, st);
            x in r.flow && Sane(KindOf(op), r.flow[x]) && (KindOf(op) == RawOwner ==> x in r.keep)
  {
  }

  lemma OwnExact(op: Op, st: State, x: Id, fault: FaultKind, k: Status, lv: int, from: iset<Store>)
    requires Here(st, x, k, lv, from) && op != SetNull && k == if Declares(op) then Outside else Inside(KindOf(op))
    ensures Exact(One(Do(op, x)), st, CheckOp(op, x, st), x, fault, k, Inside(KindOf(op)), Near(st, k, lv), from)
  {
    hide Post, Exec, CheckOp, Claimed, Bites, OpMoves, Only;
    var t, r, k1 := One(Do(op, x)), CheckOp(op, x, st), Inside(KindOf(op));
    OpSilent(op, x, st, x, fault);
    OwnSane(op, x, st);
    forall v | Claimed(r, x, k1, v) ensures Reached(Post(t, from, false), v, x, k1) {
      var w := ClaimComes(op, x, st, k, v);
      ClaimReached(st, x, k, w, from);
      var m :| m in from && Stands(w, m, x, k);
      OpStands(op, x, m, w, k);
      OpPost(op, x, from, m);
    }
    ClaimsShow(r, x, k1, Post(t, from, false));
    if Named(st, r, x, fault) {
      var w := ReportBites(op, x, fault, st);
      ClaimReached(st, x, k, w, from);
      var m :| m in from && Stands(w, m, x, k);
      OpBites(op, x, m, w);
      assert RunText(t, [], m) == Run(Normal, [], Exec(op, x, m));
      assert Hurt(RunText(t, [], m), x, fault, k, Near(st, k, lv));
    }
  }

  lemma ClaimsShow(r: State, x: Id, k: Status, N: iset<Store>)
    requires k.Inside? && x in r.flow && Sane(k.kind, r.flow[x]) && (k.kind == RawOwner ==> x in r.keep)
    requires forall v | Claimed(r, x, k, v) :: Reached(N, v, x, k)
    ensures Shown(r.keep, r.flow, x, k, N)
  {
    hide Reached;
    assert forall v | FlowClaims(k.kind, r.flow[x], v) :: Claimed(r, x, k, v);
    assert k.kind == RawOwner ==> forall v | KeepClaims(r.keep[x], v) :: Claimed(r, x, k, v);
  }

  // ---- Scope checks ----

  predicate Mentioned(reports: seq<Diagnostic>, x: Id, fault: FaultKind) {
    exists i :: 0 <= i < |reports| && Tells(reports[i], x, fault)
  }

  lemma MentionedSplit(a: seq<Diagnostic>, b: seq<Diagnostic>, x: Id, fault: FaultKind)
    requires Mentioned(a + b, x, fault)
    ensures Mentioned(a, x, fault) || Mentioned(b, x, fault)
  {
    var i :| 0 <= i < |a + b| && Tells((a + b)[i], x, fault);
    if i < |a| { assert Tells(a[i], x, fault); } else { assert Tells(b[i - |a|], x, fault); }
  }

  lemma MentionedPlus(a: seq<Diagnostic>, b: seq<Diagnostic>, x: Id, fault: FaultKind)
    ensures Mentioned(a + b, x, fault) <==> Mentioned(a, x, fault) || Mentioned(b, x, fault)
  {
    hide Tells;
    if i :| 0 <= i < |a| && Tells(a[i], x, fault) { assert Tells((a + b)[i], x, fault); }
    if i :| 0 <= i < |b| && Tells(b[i], x, fault) { assert Tells((a + b)[|a| + i], x, fault); }
    if Mentioned(a + b, x, fault) { MentionedSplit(a, b, x, fault); }
  }

  lemma OneMentioned(condition: bool, code: Code, x: Id, fault: FaultKind)
    ensures Mentioned(When(condition, code, x), x, fault) <==> condition && Charges(code, fault)
  {
    hide Charges;
    if condition { assert When(condition, code, x)[0] == Diagnostic(code, x); }
  }

  /** In every state, whether a run brings it about or not: what reading a local, using or
      deleting a pointer and awaiting a task charge the text with. */
  lemma ReadCharges(x: Id, st: State, fault: FaultKind)
    ensures Mentioned(OpReports(Read, x, st), x, fault) <==> fault == UnwrittenRead && FlowOf(st, x).init != Initialized
  {
    hide FlowOf;
    var f := FlowOf(st, x);
    OneMentioned(f.init == Uninitialized, UninitializedRead, x, fault);
    OneMentioned(f.init == MaybeUninitialized, MaybeUninitializedRead, x, fault);
  }

  lemma DerefCharges(x: Id, st: State, fault: FaultKind)
    ensures var f := FlowOf(st, x);
            Mentioned(OpReports(Deref, x, st), x, fault) <==>
              || (fault == FreedDereferenced && f.validity in {DeletedPointer, Expired, MaybeInvalid})
              || (fault == NullDereferenced && f.validity in {Null, MaybeNull})
              || (fault == UnwrittenRead && f.init != Initialized)
  {
    hide FlowOf, ReadReports, Mentioned;
    var f := FlowOf(st, x);
    MentionedPlus(ReadReports(x, st), DerefReports(x, st), x, fault);
    ReadCharges(x, st, fault);
    NoneMentioned(x, fault);
    var code := match f.validity
      case Null => NullDereference
      case MaybeNull => MaybeNullDereference
      case DeletedPointer => UseAfterDelete
      case Expired => ExpiredDereference
      case _ => MaybeInvalidDereference;
    OneMentioned(true, code, x, fault);
  }

  lemma NoneMentioned(x: Id, fault: FaultKind)
    ensures !Mentioned([], x, fault)
  {
  }

  lemma DeleteCharges(x: Id, st: State, fault: FaultKind)
    ensures var f := FlowOf(st, x);
            Mentioned(OpReports(Delete, x, st), x, fault) <==>
              || (fault == UnwrittenRead && f.init != Initialized)
              || (fault == DoubleFree &&
                  (f.validity in {Expired, MaybeInvalid}
                   || if x in st.keep then st.keep[x] == Deleted else f.validity == DeletedPointer))
  {
    hide FlowOf, Mentioned, When;
    var f := FlowOf(st, x);
    var a := When(f.init == Uninitialized, DeleteUninitialized, x);
    var b := When(f.init == MaybeUninitialized, DeleteMaybeUninitialized, x);
    var c := When(f.validity == DeletedPointer && x !in st.keep, DoubleDelete, x);
    var d := When(f.validity == Expired, DeleteExpired, x);
    var e := When(f.validity == MaybeInvalid, DeleteMaybeInvalid, x);
    var g := When(x in st.keep && st.keep[x] == Deleted, RawDoubleDelete, x);
    MentionedPlus(a, b, x, fault);
    MentionedPlus(a + b, c, x, fault);
    MentionedPlus(a + b + c, d, x, fault);
    MentionedPlus(a + b + c + d, e, x, fault);
    MentionedPlus(a + b + c + d + e, g, x, fault);
    OneMentioned(f.init == Uninitialized, DeleteUninitialized, x, fault);
    OneMentioned(f.init == MaybeUninitialized, DeleteMaybeUninitialized, x, fault);
    OneMentioned(f.validity == DeletedPointer && x !in st.keep, DoubleDelete, x, fault);
    OneMentioned(f.validity == Expired, DeleteExpired, x, fault);
    OneMentioned(f.validity == MaybeInvalid, DeleteMaybeInvalid, x, fault);
    OneMentioned(x in st.keep && st.keep[x] == Deleted, RawDoubleDelete, x, fault);
  }

  lemma AwaitCharges(x: Id, st: State, fault: FaultKind)
    ensures var f := FlowOf(st, x);
            Mentioned(OpReports(Await, x, st), x, fault) <==>
              || (fault == DoubleAwaited && f.task in {Awaited, MaybePending})
              || (fault == UnwrittenRead && f.init != Initialized)
  {
    hide FlowOf, ReadReports, Mentioned, When;
    var f := FlowOf(st, x);
    var a, b := When(f.task == Awaited, TaskDoubleAwait, x), When(f.task == MaybePending, TaskMaybeDoubleAwait, x);
    MentionedPlus(ReadReports(x, st), a + b, x, fault);
    MentionedPlus(a, b, x, fault);
    ReadCharges(x, st, fault);
    OneMentioned(f.task == Awaited, TaskDoubleAwait, x, fault);
    OneMentioned(f.task == MaybePending, TaskMaybeDoubleAwait, x, fault);
  }

  lemma {:induction false} KeepReportsName(ids: seq<Id>, keep: KeepMap, x: Id, fault: FaultKind)
    requires Mentioned(KeepReports(ids, keep), x, fault)
    ensures x in ids && x in keep && keep[x] != Deleted && fault == Dropped
  {
    if |ids| > 0 && Mentioned(KeepReports(ButLast(ids), keep), x, fault)
        { KeepReportsName(ButLast(ids), keep, x, fault); }
  }

  lemma {:induction false} TaskReportsName(ids: seq<Id>, flow: FlowMap, x: Id, fault: FaultKind)
    requires Mentioned(TaskReports(ids, flow), x, fault)
    ensures x in ids && x in flow && flow[x].task in {Pending, MaybePending} && fault == Dropped
  {
    if |ids| > 0 {
      MentionedSplit(TaskReports(ButLast(ids), flow), TaskReport(Last(ids), flow), x, fault);
      if Mentioned(TaskReports(ButLast(ids), flow), x, fault) { TaskReportsName(ButLast(ids), flow, x, fault); }
    }
  }

  lemma {:induction false} KeepScopesName(scopes: seq<seq<Id>>, keep: KeepMap, x: Id, fault: FaultKind) returns (i: nat)
    requires Mentioned(KeepScopeReports(scopes, keep), x, fault)
    ensures i < |scopes| && x in scopes[i] && x in keep && keep[x] != Deleted && fault == Dropped
  {
    MentionedSplit(KeepScopeReports(ButLast(scopes), keep), KeepReports(Last(scopes), keep), x, fault);
    if Mentioned(KeepScopeReports(ButLast(scopes), keep), x, fault) {
      i := KeepScopesName(ButLast(scopes), keep, x, fault);
    } else {
      KeepReportsName(Last(scopes), keep, x, fault);
      i := |scopes| - 1;
    }
  }

  lemma {:induction false} TaskScopesName(scopes: seq<seq<Id>>, flow: FlowMap, x: Id, fault: FaultKind) returns (i: nat)
    requires Mentioned(TaskScopeReports(scopes, flow), x, fault)
    ensures i < |scopes| && x in scopes[i] && x in flow && flow[x].task in {Pending, MaybePending}
    ensures fault == Dropped
  {
    MentionedSplit(TaskScopeReports(ButLast(scopes), flow), TaskReports(Last(scopes), flow), x, fault);
    if Mentioned(TaskScopeReports(ButLast(scopes), flow), x, fault) {
      i := TaskScopesName(ButLast(scopes), flow, x, fault);
    } else {
      TaskReportsName(Last(scopes), flow, x, fault);
      i := |scopes| - 1;
    }
  }

  /** A local named by a check of the scopes from `first` on is in one of them, and owes. */
  lemma ScopesName(st: State, first: nat, x: Id, fault: FaultKind, k: Status, lv: int)
    requires Located(st, x, k, lv)
    requires Mentioned(KeepScopeReports(From(st.keepScopes, first), st.keep), x, fault)
             || Mentioned(TaskScopeReports(From(st.flowScopes, first), st.flow), x, fault)
    ensures k.Inside? && lv >= first && fault == Dropped
    ensures (k.kind == RawOwner && st.keep[x] != Deleted) || st.flow[x].task in {Pending, MaybePending}
  {
    hide KeepScopeReports, TaskScopeReports, Mentioned;
    if Mentioned(KeepScopeReports(From(st.keepScopes, first), st.keep), x, fault) {
      var i := KeepScopesName(From(st.keepScopes, first), st.keep, x, fault);
      assert x in st.keepScopes[first + i];
    } else {
      var i := TaskScopesName(From(st.flowScopes, first), st.flow, x, fault);
      assert x in st.flowScopes[first + i];
    }
  }

  /** Then a store in which it owes is reached. */
  lemma ScopesOwe(st: State, first: nat, x: Id, fault: FaultKind, k: Status, lv: int, from: iset<Store>)
      returns (m: Store)
    requires Here(st, x, k, lv, from)
    requires Mentioned(KeepScopeReports(From(st.keepScopes, first), st.keep), x, fault)
             || Mentioned(TaskScopeReports(From(st.flowScopes, first), st.flow), x, fault)
    ensures k.Inside? && lv >= first && m in from && Holds(m, x) && fault == Dropped
  {
    hide KeepScopeReports, TaskScopeReports, Mentioned, Only;
    ScopesName(st, first, x, fault, k, lv);
    assert Claimed(st, x, k, Owing) && k.kind != Plain;
    ClaimReached(st, x, k, Owing, from);
    m :| m in from && Stands(Owing, m, x, k);
  }

  /** The reports between two states, as a list. */
  lemma NamedIs(st: State, r: State, reports: seq<Diagnostic>, x: Id, fault: FaultKind)
    requires r.diagnostics == st.diagnostics + reports
    ensures Named(st, r, x, fault) <==> Mentioned(reports, x, fault)
  {
    if Named(st, r, x, fault) {
      var i :| |st.diagnostics| <= i < |r.diagnostics| && Tells(r.diagnostics[i], x, fault);
      assert Tells(reports[i - |st.diagnostics|], x, fault);
    }
    if Mentioned(reports, x, fault) {
      var i :| 0 <= i < |reports| && Tells(reports[i], x, fault);
      assert Tells(r.diagnostics[|st.diagnostics| + i], x, fault);
    }
  }

  /** A check of scopes names only what it finds there; the report that control may not leave
      a finally block names nothing. */
  lemma ChecksName(st: State, first: nat, x: Id, fault: FaultKind)
    requires var s := ReportIf(st.finallyDepth > 0, st, FinallyControlTransfer, NO_SYMBOL);
             Named(st, CheckScopesFrom(s, first), x, fault)
    ensures Mentioned(KeepScopeReports(From(st.keepScopes, first), st.keep), x, fault)
            || Mentioned(TaskScopeReports(From(st.flowScopes, first), st.flow), x, fault)
  {
    hide KeepScopeReports, TaskScopeReports, Mentioned, Named;
    var s := ReportIf(st.finallyDepth > 0, st, FinallyControlTransfer, NO_SYMBOL);
    var k := KeepScopeReports(From(st.keepScopes, first), st.keep);
    var t := TaskScopeReports(From(st.flowScopes, first), st.flow);
    assert st.diagnostics + [] == st.diagnostics;
    var extra := if st.finallyDepth > 0 then [Diagnostic(FinallyControlTransfer, NO_SYMBOL)] else [];
    assert CheckScopesFrom(s, first).diagnostics == st.diagnostics + (extra + (k + t));
    NamedIs(st, CheckScopesFrom(s, first), extra + (k + t), x, fault);
    MentionedSplit(extra, k + t, x, fault);
    NotMentioned(extra, x, fault);
    MentionedSplit(k, t, x, fault);
  }

  lemma NotMentioned(reports: seq<Diagnostic>, x: Id, fault: FaultKind)
    requires forall i | 0 <= i < |reports| :: !Tells(reports[i], x, fault)
    ensures !Mentioned(reports, x, fault)
  {
  }

  // ---- Ways out ----

  lemma StopPost(s: Stmt, from: iset<Store>)
    requires s.Break? || s.Continue?
    ensures from <= Post(One(s), from, true)
  {
    forall m | m in from ensures Gets(One(s), from, true, m) {
      var out := if s.Break? then Broke else Continued;
      forall rest: seq<Choice> ensures Yields(One(s), m, Run(out, rest, m)) {
        assert RunText(One(s), rest, m) == Run(out, rest, m);
      }
      assert Leads(One(s), m, out, m);
    }
  }

  lemma LoopExitExact(s: Stmt, st: State, x: Id, fault: FaultKind, k: Status, lv: int, from: iset<Store>)
    requires Here(st, x, k, lv, from) && |st.loopDepths| > 0 && (s.Break? || s.Continue?)
    ensures Exact(One(s), st, CheckLoopExit(s.Break?, st), x, fault, k, k, Near(st, k, lv), from)
  {
    hide Post, Located, Reached, CheckScopesFrom, EntryShown, OwnerShown, Wider, Only, Distinct, Named, TopGrows;
    var r, to := CheckLoopExit(s.Break?, st), Post(One(s), from, true);
    StopPost(s, from);
    SubsetWider(from, to, x, k);
    FlowWider(st.flow, x, k, from, to, {});
    KeepWider(st.keep, x, k, from, to, {});
    LocatedReady(st, x, k, lv);
    LoopExitRecords(s.Break?, st);
    LoopExitGrows(s.Break?, st);
    assert NewFlows(st, r) == [st.flow];
    assert NewKeeps(st, r) == if s.Break? then [st.keep] else [];
    if Named(st, r, x, fault) {
      var m := LoopExitOwes(s.Break?, st, x, fault, k, lv, from);
      assert RunText(One(s), [], m) == Run(if s.Break? then Broke else Continued, [], m);
      assert Hurt(RunText(One(s), [], m), x, fault, k, Near(st, k, lv));
    }
  }

  lemma LocatedReady(st: State, x: Id, k: Status, lv: int)
    requires Located(st, x, k, lv)
    ensures Ready(st)
  {
  }

  lemma LoopExitOwes(isBreak: bool, st: State, x: Id, fault: FaultKind, k: Status, lv: int, from: iset<Store>)
      returns (m: Store)
    requires Here(st, x, k, lv, from) && |st.loopDepths| > 0 && Named(st, CheckLoopExit(isBreak, st), x, fault)
    ensures Near(st, k, lv) && m in from && Holds(m, x) && fault == Dropped
  {
    hide KeepScopeReports, TaskScopeReports, Mentioned, Shown, Only;
    LocatedReady(st, x, k, lv);
    ChecksName(st, Last(st.loopDepths), x, fault);
    m := ScopesOwe(st, Last(st.loopDepths), x, fault, k, lv, from);
  }

  lemma FunctionExitExact(s: Stmt, st: State, x: Id, fault: FaultKind, k: Status, lv: int, from: iset<Store>)
    requires Here(st, x, k, lv, from) && (s.Return? || s.Throw?)
    ensures Exact(One(s), st, CheckFunctionExit(st), x, fault, k, k, Near(st, k, lv), from)
  {
    hide Post, Only, KeepScopeReports, TaskScopeReports, Mentioned, Shown, Claimed, From, TopGrows;
    var r := CheckFunctionExit(st);
    if Named(st, r, x, fault) {
      ChecksName(st, 0, x, fault);
      var m := ScopesOwe(st, 0, x, fault, k, lv, from);
      assert RunText(One(s), [], m) == Run(if s.Return? then Returned else Threw, [], m);
      assert Hurt(RunText(One(s), [], m), x, fault, k, Near(st, k, lv));
    }
  }

  // ---- The end of a block ----

  lemma PopLists(st: State)
    requires Ready(st)
    ensures var r, top := PopScopes(st), |st.flowScopes| - 1;
            r.diagnostics == st.diagnostics +
              if st.terminated then []
              else TaskScopeReports(From(st.flowScopes, top), st.flow) +
                   KeepScopeReports(From(st.keepScopes, top), st.keep)
  {
    hide KeepScopeReports, TaskScopeReports;
  }

  lemma PopNames(st: State, x: Id, fault: FaultKind, k: Status, lv: int, from: iset<Store>) returns (m: Store)
    requires Here(st, x, k, lv, from) && Named(st, PopScopes(st), x, fault)
    ensures k.Inside? && lv == Top(st) && m in from && Holds(m, x) && fault == Dropped
  {
    hide KeepScopeReports, TaskScopeReports, Mentioned, Named, Shown, PopScopes, Only;
    var top := |st.flowScopes| - 1;
    PopLists(st);
    var t := TaskScopeReports(From(st.flowScopes, top), st.flow);
    var u := KeepScopeReports(From(st.keepScopes, top), st.keep);
    NamedIs(st, PopScopes(st), t + u, x, fault);
    MentionedSplit(t, u, x, fault);
    m := ScopesOwe(st, top, x, fault, k, lv, from);
  }

  /** The locals of the block of the walk are those that leave with it. */
  predicate Leaving(ids: set<Id>, st: State, x: Id, k: Status, lv: int) { k.Inside? ==> (x in ids <==> lv == Top(st)) }

  lemma EndExact(ids: set<Id>, st: State, x: Id, fault: FaultKind, k: Status, lv: int, from: iset<Store>)
    requires Here(st, x, k, lv, from) && Leaving(ids, st, x, k, lv) && |st.flowScopes| > 1
    ensures Exact(Rest(End, ids), st, PopScopes(st), x, fault, k, Kept(k, x, ids), Near(st, k, lv), from)
  {
    hide Post, PopScopes, Reached, Sane, Leave, EntryShown, OwnerShown, Only, Wider;
    var r, to := PopScopes(st), Post(Rest(End, ids), from, false);
    forall m | m in from ensures Leave(ids, m) in to { EndPost(ids, from, m); }
    LeaveWider(from, to, x, k, ids);
    FlowWider(st.flow, x, k, from, to, ids);
    KeepWider(st.keep, x, k, from, to, ids);
    LocatedReady(st, x, k, lv);
    PopQuiet(st);
    if k.Inside? && lv != Top(st) { PopEntries(st, x, k, lv); }
    if Named(st, r, x, fault) {
      var m := PopNames(st, x, fault, k, lv, from);
      EndHurts(ids, m, x);
      assert Hurt(RunText(Rest(End, ids), [], m), x, fault, k, Near(st, k, lv));
    }
  }

  lemma EndHurts(ids: set<Id>, m: Store, x: Id)
    requires x in ids && Holds(m, x)
    ensures Fault(Dropped, x) in RunText(Rest(End, ids), [], m).store.faults
  {
    assert RunAll(End, [], m) == Run(Normal, [], m);
  }

  /** A scope that does not hold `x` takes no entry of it away. */
  lemma PopEntries(st: State, x: Id, k: Status, lv: int)
    requires Located(st, x, k, lv) && lv != Top(st) && k.Inside?
    ensures var r := PopScopes(st);
            x in r.flow && r.flow[x] == st.flow[x] && (x in st.keep ==> x in r.keep && r.keep[x] == st.keep[x])
  {
    assert x !in IdsOf(Last(st.flowScopes)) && x !in IdsOf(Last(st.keepScopes));
  }

  // ---- Statements one after another ----

  lemma AppendShown(a: State, b: State, c: State, x: Id, k: Status, N: iset<Store>)
    requires Frame(a, b) && Frame(b, c) && Ready(a) && Ready(b) && Ready(c)
    requires ExitsShown(a, b, x, k, N) && ExitsShown(b, c, x, k, N)
    ensures ExitsShown(a, c, x, k, N)
  {
    hide FlowShown, KeepShown, NewFlows, NewKeeps, Frame;
    NewTransitive(a, b, c);
    var f, g := NewFlows(a, b), NewFlows(b, c);
    var l, m := NewKeeps(a, b), NewKeeps(b, c);
    forall j | 0 <= j < |f + g| ensures FlowShown((f + g)[j], x, k, N) {
      assert (f + g)[j] == if j < |f| then f[j] else g[j - |f|];
    }
    forall j | 0 <= j < |l + m| ensures KeepShown((l + m)[j], x, k, N) {
      assert (l + m)[j] == if j < |l| then l[j] else m[j - |l|];
    }
  }

  /** What the first statement of a list shows, for the whole list. */
  lemma HeadShown(s: Stmt, tail: Stmts, ids: set<Id>, st: State, x: Id, fault: FaultKind, k: Status, near: bool,
                  from: iset<Store>)
    requires Exact(One(s), st, Check(s, st), x, fault, k, After(s, x, k), near, from)
    ensures Told(Rest(Then(s, tail), ids), st, Check(s, st), x, fault, k, Kept(k, x, ids), near, from)
  {
    hide Post, Check, Shown, FlowsShown, KeepsShown, Harms, Named, Leave, Wider;
    var t, s1 := Rest(Then(s, tail), ids), Check(s, st);
    if Named(st, s1, x, fault) { ThenHarm(s, tail, ids, from, x, fault, k, near); }
    if s.Do? {
      DoRecords(s, st, x, fault, Kept(k, x, ids), Post(t, from, true));
    } else {
      forall n | n in Post(One(s), from, true) ensures Leave(ids, n) in Post(t, from, true) {
        ThenExits(s, tail, ids, from, n);
      }
      LeaveWider(Post(One(s), from, true), Post(t, from, true), x, k, ids);
      ListsWider(NewKeeps(st, s1), NewFlows(st, s1), x, k, Post(One(s), from, true), Post(t, from, true), ids);
    }
  }

  lemma DoRecords(s: Stmt, st: State, x: Id, fault: FaultKind, k: Status, N: iset<Store>)
    requires s.Do?
    ensures ExitsShown(st, Check(s, st), x, k, N)
  {
    OpSilent(s.op, s.x, st, x, fault);
  }

  /** What its rest shows. */
  lemma TailShown(s: Stmt, tail: Stmts, ids: set<Id>, s1: State, r: State, x: Id, fault: FaultKind, k: Status,
                  near: bool, k1: Status, near1: bool, from: iset<Store>)
    requires Exact(Rest(tail, ids), s1, r, x, fault, k1, Kept(k, x, ids), near1, Post(One(s), from, false))
    requires (k1, near1) == (k, near) || x in ids
    ensures Exact(Rest(Then(s, tail), ids), s1, r, x, fault, k, Kept(k, x, ids), near, from)
  {
    hide Post, FlowShown, KeepShown, Harms, Named, Leave, Wider;
    var t, u, from1 := Rest(Then(s, tail), ids), Rest(tail, ids), Post(One(s), from, false);
    var k0 := Kept(k, x, ids);
    ThenPost(s, tail, ids, from, true);
    ThenPost(s, tail, ids, from, false);
    SubsetWider(Post(u, from1, true), Post(t, from, true), x, k0);
    SubsetWider(Post(u, from1, false), Post(t, from, false), x, k0);
    ListsWider(NewKeeps(s1, r), NewFlows(s1, r), x, k0, Post(u, from1, true), Post(t, from, true), {});
    if !r.terminated {
      FlowWider(r.flow, x, k0, Post(u, from1, false), Post(t, from, false), {});
      KeepWider(r.keep, x, k0, Post(u, from1, false), Post(t, from, false), {});
    }
    if Named(s1, r, x, fault) { TailHarm(s, tail, ids, from, x, fault, k, near, k1, near1); }
  }

  lemma ToldThen(t: Text, a: State, b: State, c: State, x: Id, fault: FaultKind, k: Status, k1: Status, near: bool,
                 from: iset<Store>)
    requires Frame(a, b) && Frame(b, c) && Ready(a) && Ready(b) && Ready(c)
    requires Told(t, a, b, x, fault, k, k1, near, from) && Told(t, b, c, x, fault, k, k1, near, from)
    ensures Told(t, a, c, x, fault, k, k1, near, from)
  {
    hide Post, Harms, Named, NewFlows, NewKeeps, FlowsShown, KeepsShown, TopGrows;
    AppendShown(a, b, c, x, k1, Post(t, from, true));
    if Named(a, c, x, fault) { NamedSplit(a, b, c, x, fault); }
  }

  lemma PopFrame(st: State)
    requires Ready(st) && |st.flowScopes| > 1
    ensures Frame(st, PopScopes(st)) && Ready(PopScopes(st))
  {
    PopQuiet(st);
  }

  lemma {:induction false} RestExact(ss: Stmts, ids: set<Id>, st: State, x: Id, fault: FaultKind, k: Status, lv: int,
                                     from: iset<Store>)
    requires Here(st, x, k, lv, from) && Leaving(ids, st, x, k, lv) && |st.flowScopes| > 1 && Decls(ss) <= ids
    requires ResolvedAll(ss, x, k) && RunnableAll(ss, x, |st.loopDepths| > 0)
    ensures Exact(Rest(ss, ids), st, PopScopes(CheckAll(ss, st)), x, fault, k, Kept(k, x, ids), Near(st, k, lv), from)
    decreases ss, 0
  {
    hide Post, Check, PopScopes, Told, Shown, Only, Runnable, Resolved, Frame;
    match ss
    case End => EndExact(ids, st, x, fault, k, lv, from);
    case Then(s, tail) =>
      var s1, t, near := Check(s, st), Rest(ss, ids), Near(st, k, lv);
      var k1 := After(s, x, k);
      var lv1 := if k1 == k then lv else Top(st);
      StmtExact(s, st, x, fault, k, lv, from);
      StmtKept(s, st, x, k, lv);
      HeadShown(s, tail, ids, st, x, fault, k, near, from);
      if s1.terminated {
        StoppedExact(t, st, s1, x, fault, k, Kept(k, x, ids), near, from);
      } else {
        ExactHere(One(s), st, s1, x, fault, k, k1, lv1, near, from);
        RestExact(tail, ids, s1, x, fault, k1, lv1, Post(One(s), from, false));
        var r := PopScopes(CheckAll(tail, s1));
        TailShown(s, tail, ids, s1, r, x, fault, k, near, k1, Near(s1, k1, lv1), from);
        AllFramed(tail, s1);
        ToldThen(t, st, s1, r, x, fault, k, Kept(k, x, ids), near, from);
      }
  }

  lemma StmtKept(s: Stmt, st: State, x: Id, k: Status, lv: int)
    requires Located(st, x, k, lv) && Resolved(s, x, k)
    ensures var s1, k1 := Check(s, st), After(s, x, k);
            && Located(s1, x, k1, if k1 == k then lv else Top(st)) && Top(s1) == Top(st)
            && s1.loopDepths == st.loopDepths && Frame(st, s1) && Ready(st) && Ready(s1)
    ensures After(s, x, k) != k ==> k == Outside && s.Do? && Declares(s.op) && s.x == x
  {
    hide Check, Only;
    LocatedReady(st, x, k, lv);
    CheckTracks(s, st, x, k, lv);
    CheckGrows(s, st);
  }

  lemma StoppedExact(t: Text, st: State, s1: State, x: Id, fault: FaultKind, k: Status, k0: Status, near: bool,
                     from: iset<Store>)
    requires Ready(s1) && s1.terminated
    requires Told(t, st, s1, x, fault, k, k0, near, from)
    ensures Exact(t, st, PopScopes(s1), x, fault, k, k0, near, from)
  {
    hide Post, PopScopes, Harms, FlowsShown, KeepsShown;
    PopQuiet(s1);
    PopLists(s1);
    assert s1.diagnostics + [] == s1.diagnostics;
  }

  lemma ExactHere(t: Text, st: State, s1: State, x: Id, fault: FaultKind, k: Status, k1: Status, lv1: int, near: bool,
                  from: iset<Store>)
    requires Exact(t, st, s1, x, fault, k, k1, near, from) && Located(s1, x, k1, lv1) && !s1.terminated
    ensures Here(s1, x, k1, lv1, Post(t, from, false))
  {
  }

  lemma AllFramed(ss: Stmts, st: State)
    requires Ready(st) && |st.flowScopes| > 1
    ensures Frame(st, PopScopes(CheckAll(ss, st))) && Ready(PopScopes(CheckAll(ss, st)))
  {
    hide CheckAll, PopScopes;
    AllGrows(ss, st);
    PopFrame(CheckAll(ss, st));
    FrameTransitive(st, CheckAll(ss, st), PopScopes(CheckAll(ss, st)));
  }

  lemma {:induction false} BlockExact(body: Stmts, st: State, x: Id, fault: FaultKind, k: Status, lv: int,
                                      from: iset<Store>)
    requires Here(st, x, k, lv, from) && ResolvedAll(body, x, k) && RunnableAll(body, x, |st.loopDepths| > 0)
    ensures Exact(Body(body), st, CheckBlock(body, st), x, fault, k, k, Near(st, k, lv), from)
    decreases body, 1
  {
    hide CheckAll, PopScopes, Post, Shown, Only, RunnableAll, ResolvedAll, FlowsShown, KeepsShown, Harms;
    var s0 := PushScopes(st);
    LocatedPush(st, x, k, lv);
    if k.Inside? { NotDeclared(body, x, k.kind); }
    RestExact(body, Decls(body), s0, x, fault, k, lv, from);
  }

  lemma {:induction false} StmtExact(s: Stmt, st: State, x: Id, fault: FaultKind, k: Status, lv: int, from: iset<Store>)
    requires Here(st, x, k, lv, from) && Resolved(s, x, k) && Runnable(s, x, |st.loopDepths| > 0)
    ensures Exact(One(s), st, Check(s, st), x, fault, k, After(s, x, k), Near(st, k, lv), from)
    decreases s, 2
  {
    hide Post, Exact, Shown, CheckBlock, CheckIf, CheckSwitch, CheckLoop, CheckTry, CheckOp, CheckLoopExit,
         CheckFunctionExit, Only;
    match s
    case Do(op, y) => if y == x { OwnExact(op, st, x, fault, k, lv, from); }
        else { OtherExact(op, y, st, x, fault, k, lv, from); }
    case Call(nothrow) => CallServes(nothrow); NothingExact(One(s), st, x, fault, k, Near(st, k, lv), from);
    case Block(body) =>
      BlockExact(body, st, x, fault, k, lv, from);
      BlockServes(body);
      ServedExact(Body(body), One(s), st, CheckBlock(body, st), x, fault, k, Near(st, k, lv), from);
    case If(_, _) => IfExact(s, st, x, fault, k, lv, from);
    case Switch(_, _, _, _) => SwitchExact(s, st, x, fault, k, lv, from);
    case While(body) => LoopExact(s, Paths([st.keep], [st.flow]), st, x, fault, k, lv, from);
    case DoWhile(body) => LoopExact(s, Paths([], []), st, x, fault, k, lv, from);
    case Throw | Return => FunctionExitExact(s, st, x, fault, k, lv, from);
    case Break | Continue => LoopExitExact(s, st, x, fault, k, lv, from);
  }

  lemma BodyRuns(body: Stmts, cs: seq<Choice>, m: Store)
    ensures RunText(Body(body), cs, m) == RunBlock(body, cs, m)
  {
  }

  lemma BlockServes(body: Stmts)
    ensures Serves(Body(body), One(Block(body)))
  {
    forall cs, m ensures Yields(One(Block(body)), m, RunText(Body(body), cs, m)) {
      BodyRuns(body, cs, m);
      assert RunText(One(Block(body)), cs, m) == RunText(Body(body), cs, m);
    }
  }

  lemma ServedExact(a: Text, b: Text, st: State, r: State, x: Id, fault: FaultKind, k: Status, near: bool,
                    from: iset<Store>)
    requires Serves(a, b) && Exact(a, st, r, x, fault, k, k, near, from)
    ensures Exact(b, st, r, x, fault, k, k, near, from)
  {
    hide Post, FlowShown, KeepShown, Harms, Named, Serves, Wider;
    ServesPost(a, b, from, true);
    ServesPost(a, b, from, false);
    SubsetWider(Post(a, from, true), Post(b, from, true), x, k);
    SubsetWider(Post(a, from, false), Post(b, from, false), x, k);
    ListsWider(NewKeeps(st, r), NewFlows(st, r), x, k, Post(a, from, true), Post(b, from, true), {});
    if !r.terminated {
      FlowWider(r.flow, x, k, Post(a, from, false), Post(b, from, false), {});
      KeepWider(r.keep, x, k, Post(a, from, false), Post(b, from, false), {});
    }
    if Named(st, r, x, fault) { ServesHarm(a, b, from, x, fault, k, near); }
  }

  // ---- Nothing at all ----

  const NOTHING := Rest(End, {})

  lemma NothingRuns(cs: seq<Choice>, m: Store)
    ensures RunText(NOTHING, cs, m) == Run(Normal, cs, m)
  {
    LeaveNobody(Run(Normal, cs, m));
    assert RunAll(End, cs, m) == Run(Normal, cs, m);
  }

  lemma NothingPost(t: Text, from: iset<Store>)
    requires Serves(NOTHING, t)
    ensures from <= Post(t, from, false)
  {
    hide RunText;
    forall m | m in from ensures Gets(t, from, false, m) {
      forall rest: seq<Choice> ensures Yields(t, m, Run(Normal, rest, m)) {
        NothingRuns(rest, m);
        assert Yields(t, m, RunText(NOTHING, rest, m));
      }
      assert Leads(t, m, Normal, m);
    }
  }

  lemma NothingExact(t: Text, st: State, x: Id, fault: FaultKind, k: Status, near: bool, from: iset<Store>)
    requires Serves(NOTHING, t) && Shown(st.keep, st.flow, x, k, from)
    ensures Exact(t, st, st, x, fault, k, k, near, from)
  {
    hide Post, Serves, FlowShown, KeepShown, Wider;
    NothingPost(t, from);
    SubsetWider(from, Post(t, from, false), x, k);
    FlowWider(st.flow, x, k, from, Post(t, from, false), {});
    KeepWider(st.keep, x, k, from, Post(t, from, false), {});
  }

  lemma CallServes(nothrow: bool)
    ensures Serves(NOTHING, One(Call(nothrow)))
  {
    forall cs, m ensures Yields(One(Call(nothrow)), m, RunText(NOTHING, cs, m)) {
      NothingRuns(cs, m);
      var cs' := if nothrow then cs else [Pick(0)] + cs;
      assert !nothrow ==> cs'[1..] == cs;
      assert RunText(One(Call(nothrow)), cs', m) == Run(Normal, cs, m);
    }
  }

  // ---- Branches ----

  /** The else branch, or nothing. */
  function Left(els: Else): Text { if els.ElseBody? then Body(els.body) else NOTHING }

  ghost predicate PathsShown(p: Paths, x: Id, k: Status, N: iset<Store>) {
    |p.keeps| == |p.flows| && FlowsShown(p.flows, x, k, N) && KeepsShown(p.keeps, x, k, N)
  }

  /** Every branch is a way through `goal`. */
  ghost predicate ServesAll(arms: Arms, goal: Text) {
    arms.Arm? ==> Serves(Body(arms.body), goal) && ServesAll(arms.rest, goal)
  }

  lemma AddShown(p: Paths, r: State, x: Id, k: Status, N: iset<Store>)
    requires PathsShown(p, x, k, N) && (!r.terminated ==> Shown(r.keep, r.flow, x, k, N))
    ensures PathsShown(AddPath(p, r), x, k, N)
  {
    hide FlowShown, KeepShown;
  }

  /** Nothing recorded, and nothing reported but on the structure of the program. */
  lemma SilentTold(t: Text, st: State, r: State, x: Id, fault: FaultKind, k: Status, near: bool, from: iset<Store>)
    requires r.breakFlows == st.breakFlows && r.breakKeeps == st.breakKeeps && !Named(st, r, x, fault)
    ensures Told(t, st, r, x, fault, k, k, near, from)
  {
  }

  lemma LabelSilent(on: Selector, tag: Label, seen: set<Label>, st: State, x: Id, fault: FaultKind)
    ensures var r := CheckLabel(on, tag, seen, st);
            r == st.(diagnostics := r.diagnostics) && !Named(st, r, x, fault)
  {
    hide LabelFits;
  }

  lemma EnterSilent(kind: ArmKind, tag: Label, seen: set<Label>, st: State, x: Id, fault: FaultKind)
    requires !kind.Catches?
    ensures var r := EnterArm(kind, tag, seen, st);
            && r.breakFlows == st.breakFlows && r.breakKeeps == st.breakKeeps && !Named(st, r, x, fault)
            && r.keep == st.keep && r.flow == st.flow && r.terminated == st.terminated && r.loopDepths == st.loopDepths
  {
    hide CheckLabel, LabelFits;
    if kind.SwitchOn? { LabelSilent(kind.on, tag, seen, st, x, fault); }
  }

  lemma {:induction false} ArmsExact(kind: ArmKind, arms: Arms, seen: set<Label>, keep: KeepMap, flow: FlowMap,
                                     st: State, p: Paths, x: Id, fault: FaultKind, k: Status, lv: int, goal: Text,
                                     from: iset<Store>)
    requires !kind.Catches? && NoneCaught(arms) && ServesAll(arms, goal)
    requires Here(EnterBranch(keep, flow, st), x, k, lv, from)
    requires ResolvedArms(arms, x, k) && RunnableArms(arms, x, |st.loopDepths| > 0)
    requires PathsShown(p, x, k, Post(goal, from, false))
    ensures var (r, q) := CheckArms(kind, arms, seen, keep, flow, st, p);
            PathsShown(q, x, k, Post(goal, from, false)) && Told(goal, st, r, x, fault, k, k, Near(st, k, lv), from)
    decreases arms, 0
  {
    hide Post, CheckBlock, EnterArm, Told, Shown, Only, Frame, PathsShown, AddPath, Serves, RunnableAll, ResolvedAll;
    match arms
    case NoArms => SilentTold(goal, st, st, x, fault, k, Near(st, k, lv), from);
    case Arm(tag, body, rest) =>
      var s2 := CheckBlock(body, EnterArm(kind, tag, seen, EnterBranch(keep, flow, st)));
      ArmExact(kind, tag, body, seen, keep, flow, st, x, fault, k, lv, goal, from);
      AddShown(p, s2, x, k, Post(goal, from, false));
      ArmFrame(kind, tag, body, seen, keep, flow, st, x, k, lv);
      var (r, q) := CheckArms(kind, rest, seen + {tag}, keep, flow, s2, AddPath(p, s2));
      ArmsExact(kind, rest, seen + {tag}, keep, flow, s2, AddPath(p, s2), x, fault, k, lv, goal, from);
      ArmsGrow(kind, rest, seen + {tag}, keep, flow, s2, AddPath(p, s2));
      ToldThen(goal, st, s2, r, x, fault, k, k, Near(st, k, lv), from);
  }

  /** One branch. */
  lemma {:induction false} ArmExact(kind: ArmKind, tag: Label, body: Stmts, seen: set<Label>, keep: KeepMap,
                                    flow: FlowMap, st: State, x: Id, fault: FaultKind, k: Status, lv: int, goal: Text,
                                    from: iset<Store>)
    requires !kind.Catches? && !tag.Caught? && Serves(Body(body), goal)
    requires Here(EnterBranch(keep, flow, st), x, k, lv, from)
    requires ResolvedAll(body, x, k) && RunnableAll(body, x, |st.loopDepths| > 0)
    ensures var s2 := CheckBlock(body, EnterArm(kind, tag, seen, EnterBranch(keep, flow, st)));
            Exact(goal, st, s2, x, fault, k, k, Near(st, k, lv), from)
    decreases body, 2
  {
    hide Post, CheckBlock, EnterArm, Told, Shown, Only, TopGrows, Serves, RunnableAll, ResolvedAll, Named;
    var s0 := EnterBranch(keep, flow, st);
    var s1 := EnterArm(kind, tag, seen, s0);
    var s2, near := CheckBlock(body, s1), Near(st, k, lv);
    EnterSilent(kind, tag, seen, s0, x, fault);
    LocatedReady(s0, x, k, lv);
    EnterArmGrows(kind, tag, seen, s0);
    EnterArmTracks(kind, tag, seen, s0, x, k, lv);
    BlockExact(body, s1, x, fault, k, lv, from);
    ServedExact(Body(body), goal, s1, s2, x, fault, k, near, from);
    BlockGrows(body, s1);
    SilentTold(goal, s0, s1, x, fault, k, near, from);
    ToldThen(goal, s0, s1, s2, x, fault, k, k, near, from);
    ToldFrom(goal, st, s0, s2, x, fault, k, near, from);
  }

  lemma ToldFrom(t: Text, a: State, b: State, r: State, x: Id, fault: FaultKind, k: Status, near: bool,
                 from: iset<Store>)
    requires a.diagnostics == b.diagnostics && a.breakFlows == b.breakFlows && a.breakKeeps == b.breakKeeps
    requires Told(t, b, r, x, fault, k, k, near, from)
    ensures Told(t, a, r, x, fault, k, k, near, from)
  {
    hide Post, Harms;
  }

  lemma ToldTo(t: Text, st: State, a: State, b: State, x: Id, fault: FaultKind, k: Status, near: bool,
               from: iset<Store>)
    requires a.diagnostics == b.diagnostics && a.breakFlows == b.breakFlows && a.breakKeeps == b.breakKeeps
    requires Told(t, st, a, x, fault, k, k, near, from)
    ensures Told(t, st, b, x, fault, k, k, near, from)
  {
    hide Post, Harms;
  }

  /** After it the next branch starts as before. */
  lemma ArmFrame(kind: ArmKind, tag: Label, body: Stmts, seen: set<Label>, keep: KeepMap, flow: FlowMap, st: State,
                 x: Id, k: Status, lv: int)
    requires !kind.Catches? && !tag.Caught? && ResolvedAll(body, x, k)
    requires Located(EnterBranch(keep, flow, st), x, k, lv)
    ensures var s2 := CheckBlock(body, EnterArm(kind, tag, seen, EnterBranch(keep, flow, st)));
            && Located(EnterBranch(keep, flow, s2), x, k, lv) && Frame(st, s2) && Ready(st) && Ready(s2)
            && s2.loopDepths == st.loopDepths
  {
    hide CheckBlock, EnterArm, Only, TopGrows, ResolvedAll;
    var s0 := EnterBranch(keep, flow, st);
    LocatedReady(s0, x, k, lv);
    ArmKeepsFrame(kind, tag, body, seen, keep, flow, st);
    ArmTracks(kind, tag, body, seen, keep, flow, s0, x, k, lv);
    LocatedReset(s0, CheckBlock(body, EnterArm(kind, tag, seen, s0)), x, k, lv);
  }

  lemma {:induction false} ElseExact(els: Else, keep: KeepMap, flow: FlowMap, open: bool, st: State, p: Paths, x: Id,
                                     fault: FaultKind, k: Status, lv: int, goal: Text, from: iset<Store>)
    requires els.ElseBody? || open ==> Serves(Left(els), goal)
    requires Here(EnterBranch(keep, flow, st), x, k, lv, from)
    requires ResolvedElse(els, x, k) && RunnableElse(els, x, |st.loopDepths| > 0)
    requires PathsShown(p, x, k, Post(goal, from, false))
    ensures var (r, q) := CheckElse(els, keep, flow, open, st, p);
            PathsShown(q, x, k, Post(goal, from, false)) && Told(goal, st, r, x, fault, k, k, Near(st, k, lv), from)
    decreases els, 0
  {
    hide Post, CheckBlock, Told, Shown, Only, Frame, PathsShown, Serves, RunnableAll, ResolvedAll;
    var s0, near := EnterBranch(keep, flow, st), Near(st, k, lv);
    match els
    case NoElse =>
      SilentTold(goal, st, st, x, fault, k, near, from);
      if open {
        NothingExact(goal, s0, x, fault, k, near, from);
        AddShown(p, s0, x, k, Post(goal, from, false));
      }
    case ElseBody(body) =>
      BlockExact(body, s0, x, fault, k, lv, from);
      ServedExact(Body(body), goal, s0, CheckBlock(body, s0), x, fault, k, near, from);
      AddShown(p, CheckBlock(body, s0), x, k, Post(goal, from, false));
      ToldFrom(goal, st, s0, CheckBlock(body, s0), x, fault, k, near, from);
  }

  lemma RejoinExact(goal: Text, st: State, s2: State, p: Paths, terminated: bool, x: Id, fault: FaultKind, k: Status,
                    lv: int, near: bool, from: iset<Store>)
    requires Located(st, x, k, lv) && PathsShown(p, x, k, Post(goal, from, false))
    requires Told(goal, st, s2, x, fault, k, k, near, from) && (terminated || p.keeps != [])
    ensures Exact(goal, st, Rejoin(st.keep, st.flow, p, terminated, s2), x, fault, k, k, near, from)
  {
    hide Post, Told, Shown, Only, FlowsShown, KeepsShown, MergeKeepPaths, MergeFlowPaths;
    ToldTo(goal, st, s2, Rejoin(st.keep, st.flow, p, terminated, s2), x, fault, k, near, from);
    if !terminated { MergeShown(st.keep, st.flow, p.keeps, p.flows, x, k, Post(goal, from, false)); }
  }

  /** The branches of `s`, then what is left. */
  lemma {:induction false} BranchesExact(s: Stmt, kind: ArmKind, open: bool, st: State, x: Id, fault: FaultKind,
                                         k: Status, lv: int, from: iset<Store>)
    requires (s.If? || s.Switch?) && !kind.Catches? && ServesAll(s.arms, One(s)) && Here(st, x, k, lv, from)
    requires s.els.ElseBody? || open ==> Serves(Left(s.els), One(s))
    requires Resolved(s, x, k) && Runnable(s, x, |st.loopDepths| > 0)
    ensures var (s1, p1) := CheckArms(kind, s.arms, {}, st.keep, st.flow, st, Paths([], []));
            var (s2, p2) := CheckElse(s.els, st.keep, st.flow, open, s1, p1);
            && PathsShown(p2, x, k, Post(One(s), from, false))
            && Told(One(s), st, s2, x, fault, k, k, Near(st, k, lv), from)
            && st.diagnostics <= s2.diagnostics
    decreases s, 0
  {
    hide Post, CheckArms, CheckElse, Told, Shown, Only, PathsShown, ServesAll, Serves, RunnableArms, RunnableElse,
         ResolvedArms, ResolvedElse, TopGrows, NoneCaught;
    var (s1, p1) := CheckArms(kind, s.arms, {}, st.keep, st.flow, st, Paths([], []));
    var (s2, p2) := CheckElse(s.els, st.keep, st.flow, open, s1, p1);
    var goal, near := One(s), Near(st, k, lv);
    BranchesBegin(st, x, k, lv, from, Post(goal, from, false));
    ArmsExact(kind, s.arms, {}, st.keep, st.flow, st, Paths([], []), x, fault, k, lv, goal, from);
    BranchesFrame(kind, s.arms, s.els, open, st, x, k, lv);
    ElseExact(s.els, st.keep, st.flow, open, s1, p1, x, fault, k, lv, goal, from);
    ToldThen(goal, st, s1, s2, x, fault, k, k, near, from);
  }

  lemma BranchesBegin(st: State, x: Id, k: Status, lv: int, from: iset<Store>, N: iset<Store>)
    requires Here(st, x, k, lv, from)
    ensures EnterBranch(st.keep, st.flow, st) == st && PathsShown(Paths([], []), x, k, N)
  {
  }

  lemma BranchesFrame(kind: ArmKind, arms: Arms, els: Else, open: bool, st: State, x: Id, k: Status, lv: int)
    requires !kind.Catches? && NoneCaught(arms) && ResolvedArms(arms, x, k) && Located(st, x, k, lv)
    ensures var (s1, p1) := CheckArms(kind, arms, {}, st.keep, st.flow, st, Paths([], []));
            var s2 := CheckElse(els, st.keep, st.flow, open, s1, p1).0;
            && Frame(st, s1) && Frame(s1, s2) && Ready(st) && Ready(s1) && Ready(s2)
            && Located(EnterBranch(st.keep, st.flow, s1), x, k, lv)
  {
    hide CheckArms, CheckElse, Only, TopGrows, ResolvedArms;
    var (s1, p1) := CheckArms(kind, arms, {}, st.keep, st.flow, st, Paths([], []));
    LocatedReady(st, x, k, lv);
    ArmsGrow(kind, arms, {}, st.keep, st.flow, st, Paths([], []));
    ElseGrows(els, st.keep, st.flow, open, s1, p1);
    assert st.(keep := st.keep, flow := st.flow) == st;
    ArmsTrack(kind, arms, {}, st.keep, st.flow, st, Paths([], []), x, k, lv);
    SameTables(s1.(keep := st.keep, flow := st.flow), EnterBranch(st.keep, st.flow, s1), x, k, lv);
  }

  // ---- If ----

  /** The branches `arms` are those of `all` from `n` on. */
  ghost predicate ArmsFrom(all: Arms, n: nat, arms: Arms) {
    n + Count(arms) == Count(all) &&
    forall j: nat, cs, m | j < Count(arms) :: RunArm(arms, j, false, cs, m) == RunArm(all, n + j, false, cs, m)
  }

  lemma {:induction false} IfServes(s: Stmt, n: nat, arms: Arms)
    requires s.If? && ArmsFrom(s.arms, n, arms)
    ensures ServesAll(arms, One(s))
    decreases arms
  {
    hide Serves, ArmsFrom, RunArm;
    if arms.Arm? {
      IfArmServes(s, n, arms);
      ArmsNext(s.arms, n, arms);
      IfServes(s, n + 1, arms.rest);
    }
  }

  lemma ArmsNext(all: Arms, n: nat, arms: Arms)
    requires ArmsFrom(all, n, arms) && arms.Arm?
    ensures ArmsFrom(all, n + 1, arms.rest)
  {
    forall j: nat, cs, m | j < Count(arms.rest)
      ensures RunArm(arms.rest, j, false, cs, m) == RunArm(all, n + 1 + j, false, cs, m)
    {
      assert RunArm(arms, j + 1, false, cs, m) == RunArm(all, n + (j + 1), false, cs, m);
    }
  }

  lemma FirstArmRuns(arms: Arms, cs: seq<Choice>, m: Store)
    requires arms.Arm?
    ensures RunArm(arms, 0, false, cs, m) == RunText(Body(arms.body), cs, m)
  {
    hide RunAll;
    LeaveNobody(RunBlock(arms.body, cs, m));
    BodyRuns(arms.body, cs, m);
  }

  lemma IfArmServes(s: Stmt, n: nat, arms: Arms)
    requires s.If? && ArmsFrom(s.arms, n, arms) && arms.Arm?
    ensures Serves(Body(arms.body), One(s))
  {
    hide RunArm, RunElse, RunAll;
    forall cs, m ensures Yields(One(s), m, RunText(Body(arms.body), cs, m)) {
      var cs' := [Pick(n)] + cs;
      assert cs'[1..] == cs;
      FirstArmRuns(arms, cs, m);
      assert RunArm(arms, 0, false, cs, m) == RunArm(s.arms, n + 0, false, cs, m);
      assert RunText(One(s), cs', m) == RunText(Body(arms.body), cs, m);
    }
  }

  lemma LeftRuns(els: Else, cs: seq<Choice>, m: Store)
    ensures RunText(Left(els), cs, m) == RunElse(els, cs, m)
  {
    if els.ElseBody? { BodyRuns(els.body, cs, m); } else { NothingRuns(cs, m); }
  }

  lemma IfElseServes(s: Stmt)
    requires s.If?
    ensures Serves(Left(s.els), One(s))
  {
    hide RunElse, RunArm, RunAll;
    forall cs, m ensures Yields(One(s), m, RunText(Left(s.els), cs, m)) {
      var cs' := [Pick(Count(s.arms))] + cs;
      assert cs'[1..] == cs;
      LeftRuns(s.els, cs, m);
      assert RunText(One(s), cs', m) == RunElse(s.els, cs, m);
    }
  }

  lemma {:induction false} IfExact(s: Stmt, st: State, x: Id, fault: FaultKind, k: Status, lv: int, from: iset<Store>)
    requires s.If? && Here(st, x, k, lv, from) && Resolved(s, x, k) && Runnable(s, x, |st.loopDepths| > 0)
    ensures Exact(One(s), st, CheckIf(s, st), x, fault, k, k, Near(st, k, lv), from)
    decreases s, 1
  {
    hide Post, CheckArms, CheckElse, Told, Shown, Only, PathsShown, ServesAll, Serves, RunnableArms, RunnableElse,
         ResolvedArms, ResolvedElse, Frame, RunArm;
    assert ArmsFrom(s.arms, 0, s.arms);
    IfServes(s, 0, s.arms);
    IfElseServes(s);
    BranchesExact(s, IfChain, true, st, x, fault, k, lv, from);
    var (s1, p1) := CheckArms(IfChain, s.arms, {}, st.keep, st.flow, st, Paths([], []));
    var (s2, p2) := CheckElse(s.els, st.keep, st.flow, true, s1, p1);
    RejoinExact(One(s), st, s2, p2, p2.keeps == [], x, fault, k, lv, Near(st, k, lv), from);
  }

  // ---- Switch ----

  predicate SameCase(all: Arms, arms: Arms, v: Label, cs: seq<Choice>, m: Store) {
    v in Labels(arms) && v in Labels(all) && RunCase(arms, v, cs, m) == RunCase(all, v, cs, m)
  }

  /** Every case of `arms` is the same case of `all`. */
  ghost predicate CasesFrom(all: Arms, arms: Arms) {
    forall v, cs, m | v in Labels(arms) :: SameCase(all, arms, v, cs, m)
  }

  lemma {:induction false} SwitchServes(s: Stmt, arms: Arms)
    requires s.Switch? && CasesFrom(s.arms, arms) && Fit(s.on, arms) && !Repeats(arms)
    ensures ServesAll(arms, One(s))
    decreases arms
  {
    hide Serves, CasesFrom, RunCase, LabelFits;
    if arms.Arm? {
      CaseServes(s, arms);
      CasesNext(s.arms, arms, s.on);
      SwitchServes(s, arms.rest);
    }
  }

  lemma CasesBegin(all: Arms)
    ensures CasesFrom(all, all)
  {
    hide RunCase;
  }

  lemma CasesNext(all: Arms, arms: Arms, on: Selector)
    requires CasesFrom(all, arms) && arms.Arm? && Fit(on, arms) && !Repeats(arms)
    ensures CasesFrom(all, arms.rest)
  {
    hide RunBlock;
    forall v, cs, m | v in Labels(arms.rest) ensures SameCase(all, arms.rest, v, cs, m) {
      assert v in Labels(arms) && v != arms.tag;
      assert SameCase(all, arms, v, cs, m);
    }
  }

  lemma CaseServes(s: Stmt, arms: Arms)
    requires s.Switch? && CasesFrom(s.arms, arms) && Fit(s.on, arms) && !Repeats(arms) && arms.Arm?
    ensures Serves(Body(arms.body), One(s))
  {
    hide RunElse, RunAll, LabelFits;
    forall cs, m ensures Yields(One(s), m, RunText(Body(arms.body), cs, m)) {
      var cs' := [Value(arms.tag)] + cs;
      assert cs'[1..] == cs && arms.tag in Labels(arms);
      BodyRuns(arms.body, cs, m);
      assert SameCase(s.arms, arms, arms.tag, cs, m);
      assert RunText(One(s), cs', m) == RunText(Body(arms.body), cs, m);
    }
  }

  lemma DefaultServes(s: Stmt)
    requires s.Switch? && !EveryValue(s.on, s.arms)
    ensures Serves(Left(s.els), One(s))
  {
    hide RunElse, RunAll, RunCase, Covers, LabelFits;
    var v :| LabelFits(s.on, v) && v !in Labels(s.arms);
    forall cs, m ensures Yields(One(s), m, RunText(Left(s.els), cs, m)) {
      var cs' := [Value(v)] + cs;
      assert cs'[1..] == cs;
      LeftRuns(s.els, cs, m);
      assert RunText(One(s), cs', m) == RunElse(s.els, cs, m);
    }
  }

  lemma {:induction false} SwitchExact(s: Stmt, st: State, x: Id, fault: FaultKind, k: Status, lv: int,
                                       from: iset<Store>)
    requires s.Switch? && Here(st, x, k, lv, from) && Resolved(s, x, k) && Runnable(s, x, |st.loopDepths| > 0)
    ensures Exact(One(s), st, CheckSwitch(s, st), x, fault, k, k, Near(st, k, lv), from)
    decreases s, 1
  {
    hide Post, CheckArms, CheckElse, Told, Shown, Only, PathsShown, ServesAll, Serves, RunnableArms, RunnableElse,
         ResolvedArms, ResolvedElse, Frame, RunCase, Covers, Fit, Repeats, Labels;
    var all := s.els.ElseBody? || Covers(s.on, Labels(s.arms));
    CasesBegin(s.arms);
    SwitchServes(s, s.arms);
    CoversIs(s.on, s.arms);
    if !EveryValue(s.on, s.arms) { DefaultServes(s); }
    BranchesExact(s, SwitchOn(s.on), !all, st, x, fault, k, lv, from);
    var (s1, p1) := CheckArms(SwitchOn(s.on), s.arms, {}, st.keep, st.flow, st, Paths([], []));
    var (s2, p2) := CheckElse(s.els, st.keep, st.flow, !all, s1, p1);
    var s3 := ReportIf(s.exhaustive && !all, s2, NonExhaustiveMatch, NO_SYMBOL);
    ReportTold(One(s), st, s2, s.exhaustive && !all, x, fault, k, Near(st, k, lv), from);
    if !all { OpenPaths(s.els, st.keep, st.flow, s1, p1); }
    RejoinExact(One(s), st, s3, p2, all && p2.keeps == [], x, fault, k, lv, Near(st, k, lv), from);
  }

  lemma OpenPaths(els: Else, keep: KeepMap, flow: FlowMap, st: State, p: Paths)
    requires els.NoElse?
    ensures CheckElse(els, keep, flow, true, st, p).1.keeps != []
  {
  }

  lemma ReportTold(t: Text, st: State, s2: State, report: bool, x: Id, fault: FaultKind, k: Status, near: bool,
                   from: iset<Store>)
    requires Told(t, st, s2, x, fault, k, k, near, from) && st.diagnostics <= s2.diagnostics
    ensures Told(t, st, ReportIf(report, s2, NonExhaustiveMatch, NO_SYMBOL), x, fault, k, k, near, from)
  {
    hide Post, Harms, FlowsShown, KeepsShown, Named;
    var s3 := ReportIf(report, s2, NonExhaustiveMatch, NO_SYMBOL);
    ChargesNobody(report, s2, NonExhaustiveMatch, x, fault);
    if Named(st, s3, x, fault) { NamedSplit(st, s2, s3, x, fault); }
  }

  /** A report on the structure charges the text with no harm. */
  lemma ChargesNobody(report: bool, st: State, code: Code, x: Id, fault: FaultKind)
    requires Structural(code)
    ensures var r := ReportIf(report, st, code, NO_SYMBOL);
            st.diagnostics <= r.diagnostics && !Named(st, r, x, fault)
  {
    var r := ReportIf(report, st, code, NO_SYMBOL);
    NamedIs(st, r, When(report, code, NO_SYMBOL), x, fault);
    NotMentioned(When(report, code, NO_SYMBOL), x, fault);
  }

  // ---- Loops ----

  /** A turn that ends or leaves the loop is a way through the loop. */
  lemma TurnPost(s: Stmt, from: iset<Store>, exits: bool)
    requires s.While? || s.DoWhile?
    ensures Post(Body(s.body), from, exits) <= Post(One(s), from, false)
  {
    hide RunText;
    forall n | n in Post(Body(s.body), from, exits) ensures Gets(One(s), from, false, n) {
      var m, out :| m in from && Ends(out, exits) && Leads(Body(s.body), m, out, n);
      forall rest: seq<Choice> ensures Yields(One(s), m, Run(Normal, rest, n)) {
        var after := if out == Broke then rest else [Pick(0)] + rest;
        assert Yields(Body(s.body), m, Run(out, after, n));
        var cs :| RunText(Body(s.body), cs, m) == Run(out, after, n);
        TurnRuns(s, cs, m, out, rest, n);
      }
      assert Leads(One(s), m, Normal, n);
    }
  }

  lemma TurnRuns(s: Stmt, cs: seq<Choice>, m: Store, out: Outcome, rest: seq<Choice>, n: Store)
    requires s.While? || s.DoWhile?
    requires RunText(Body(s.body), cs, m) == Run(out, if out == Broke then rest else [Pick(0)] + rest, n)
    requires out == Normal || out == Continued || out == Broke
    ensures Yields(One(s), m, Run(Normal, rest, n))
  {
    hide RunBlock;
    BodyRuns(s.body, cs, m);
    assert ([Pick(0)] + rest)[1..] == rest;
    LoopIsAgain(s, cs, m);
    assert RunAgain(s.body, RunBlock(s.body, cs, m), cs) == Run(Normal, rest, n);
  }

  lemma NoTurnPost(s: Stmt, from: iset<Store>)
    requires s.While?
    ensures from <= Post(One(s), from, false)
  {
    forall cs, m ensures Yields(One(s), m, RunText(NOTHING, cs, m)) {
      NothingRuns(cs, m);
      assert ([Pick(0)] + cs)[1..] == cs;
      assert RunLoop(s.body, [Pick(0)] + cs, m) == Run(Normal, cs, m);
      assert RunText(One(s), [Pick(0)] + cs, m) == Run(Normal, cs, m);
    }
    NothingPost(One(s), from);
  }

  /** Harm done in the first turn stays. */
  lemma TurnHarm(s: Stmt, from: iset<Store>, x: Id, fault: FaultKind, k: Status, near: bool)
    requires (s.While? || s.DoWhile?) && Harms(Body(s.body), from, x, fault, k, false)
    ensures Harms(One(s), from, x, fault, k, near)
  {
    hide RunText;
    var m, cs :| m in from && Hurt(RunText(Body(s.body), cs, m), x, fault, k, false);
    TurnHurts(s, cs, m, x, fault, k, near);
    var cs' := if s.While? then [Pick(1)] + cs else cs;
    assert Hurt(RunText(One(s), cs', m), x, fault, k, near);
  }

  lemma TurnHurts(s: Stmt, cs: seq<Choice>, m: Store, x: Id, fault: FaultKind, k: Status, near: bool)
    requires (s.While? || s.DoWhile?) && Hurt(RunText(Body(s.body), cs, m), x, fault, k, false)
    ensures Hurt(RunText(One(s), if s.While? then [Pick(1)] + cs else cs, m), x, fault, k, near)
  {
    hide RunLoop, RunBlock, Accounted, RunAll;
    var cs' := if s.While? then [Pick(1)] + cs else cs;
    var q := RunBlock(s.body, cs, m);
    BodyRuns(s.body, cs, m);
    assert RunText(One(s), cs', m) == RunAgain(s.body, q, cs) by { LoopIsAgain(s, cs, m); }
    if q.outcome == Normal || q.outcome == Continued { LedgerLoop(s.body, q.rest, q.store); }
  }

  lemma LoopIsAgain(s: Stmt, cs: seq<Choice>, m: Store)
    requires s.While? || s.DoWhile?
    ensures RunText(One(s), if s.While? then [Pick(1)] + cs else cs, m) == RunAgain(s.body, RunBlock(s.body, cs, m), cs)
  {
    hide RunBlock;
    if s.While? {
      var cs' := [Pick(1)] + cs;
      assert cs'[0] == Pick(1) && cs'[1..] == cs;
      assert RunLoop(s.body, cs', m) == RunAgain(s.body, RunBlock(s.body, cs, m), cs);
      assert RunText(One(s), cs', m) == RunLoop(s.body, cs', m);
    }
  }

  lemma ListsShown(a: Paths, keeps: seq<KeepMap>, flows: seq<FlowMap>, x: Id, k: Status, N: iset<Store>)
    requires PathsShown(a, x, k, N) && FlowsShown(flows, x, k, N) && KeepsShown(keeps, x, k, N)
    ensures FlowsShown(a.flows + flows, x, k, N) && KeepsShown(a.keeps + keeps, x, k, N)
  {
    hide FlowShown, KeepShown;
  }

  /** The exits of a loop are reached. */
  lemma LoopShown(s: Stmt, first: Paths, st: State, s1: State, x: Id, fault: FaultKind, k: Status, lv: int,
                  from: iset<Store>)
    requires Here(st, x, k, lv, from) && Frame(EnterLoop(st), s1) && Ready(s1)
    requires if s.While? then first == Paths([st.keep], [st.flow]) else s.DoWhile? && first == Paths([], [])
    requires s.DoWhile? ==> !s1.terminated
    requires Exact(Body(s.body), EnterLoop(st), s1, x, fault, k, k, false, from)
    ensures var r := LeaveLoop(st.keep, st.flow, first, s1);
            Shown(r.keep, r.flow, x, k, Post(One(s), from, false))
  {
    hide Post, FlowShown, KeepShown, Only, Harms, Wider, MergeKeepPaths, MergeFlowPaths, Named;
    var to, body := Post(One(s), from, false), Body(s.body);
    TurnPost(s, from, true);
    TurnPost(s, from, false);
    SubsetWider(Post(body, from, true), to, x, k);
    SubsetWider(Post(body, from, false), to, x, k);
    var keeps, flows := Last(s1.breakKeeps), Last(s1.breakFlows);
    assert NewKeeps(EnterLoop(st), s1) == keeps && NewFlows(EnterLoop(st), s1) == flows;
    ListsWider(keeps, flows, x, k, Post(body, from, true), to, {});
    if !s1.terminated {
      FlowWider(s1.flow, x, k, Post(body, from, false), to, {});
      KeepWider(s1.keep, x, k, Post(body, from, false), to, {});
    }
    FirstShown(s, first, st, x, k, from);
    var p := AddPath(first, s1);
    AddShown(first, s1, x, k, to);
    ListsShown(p, keeps, flows, x, k, to);
    TrackedEntries(st, x, k, lv);
    MergeShown(st.keep, st.flow, p.keeps + keeps, p.flows + flows, x, k, to);
  }

  lemma TrackedEntries(st: State, x: Id, k: Status, lv: int)
    requires Located(st, x, k, lv)
    ensures (k.Inside? ==> x in st.flow) && (k == Inside(RawOwner) ==> x in st.keep)
  {
  }

  lemma FirstShown(s: Stmt, first: Paths, st: State, x: Id, k: Status, from: iset<Store>)
    requires Shown(st.keep, st.flow, x, k, from)
    requires if s.While? then first == Paths([st.keep], [st.flow]) else first == Paths([], [])
    ensures PathsShown(first, x, k, Post(One(s), from, false))
  {
    hide Post, FlowShown, KeepShown, Wider;
    if s.While? {
      NoTurnPost(s, from);
      SubsetWider(from, Post(One(s), from, false), x, k);
      FlowWider(st.flow, x, k, from, Post(One(s), from, false), {});
      KeepWider(st.keep, x, k, from, Post(One(s), from, false), {});
    }
  }

  lemma {:induction false} LoopExact(s: Stmt, first: Paths, st: State, x: Id, fault: FaultKind, k: Status, lv: int,
                                     from: iset<Store>)
    requires Here(st, x, k, lv, from) && Resolved(s, x, k) && Runnable(s, x, |st.loopDepths| > 0)
    requires if s.While? then first == Paths([st.keep], [st.flow]) else s.DoWhile? && first == Paths([], [])
    ensures Exact(One(s), st, CheckLoop(s.body, first, st), x, fault, k, k, Near(st, k, lv), from)
    decreases s, 1
  {
    hide Post, CheckBlock, Told, Shown, Only, RunnableAll, ResolvedAll, TopGrows, StopsAll, LeaveLoop, MergeKeepPaths,
         MergeFlowPaths;
    var s0 := EnterLoop(st);
    var s1 := CheckBlock(s.body, s0);
    BlockExact(s.body, s0, x, fault, k, lv, from);
    BlockGrows(s.body, s0);
    BlockStops(s.body, s0);
    LoopShown(s, first, st, s1, x, fault, k, lv, from);
    LoopTold(s, first, st, s1, x, fault, k, Near(st, k, lv), from);
  }

  lemma LoopTold(s: Stmt, first: Paths, st: State, s1: State, x: Id, fault: FaultKind, k: Status, near: bool,
                 from: iset<Store>)
    requires (s.While? || s.DoWhile?) && Ready(st) && Ready(s1) && Frame(EnterLoop(st), s1)
    requires Told(Body(s.body), EnterLoop(st), s1, x, fault, k, k, false, from)
    ensures Told(One(s), st, LeaveLoop(st.keep, st.flow, first, s1), x, fault, k, k, near, from)
    ensures !LeaveLoop(st.keep, st.flow, first, s1).terminated
  {
    hide Post, Harms, MergeKeepPaths, MergeFlowPaths, FlowShown, KeepShown;
    LeaveLists(st, first, s1);
    var r := LeaveLoop(st.keep, st.flow, first, s1);
    assert r.diagnostics == s1.diagnostics;
    if Named(st, r, x, fault) {
      assert Named(EnterLoop(st), s1, x, fault);
      TurnHarm(s, from, x, fault, k, near);
    }
  }

  // ---- Whole functions ----

  /** A report on `x` comes from the body: by the last check all locals have left. */
  lemma FunctionNames(body: Stmts, returnsValue: bool, code: Code, x: Id, fault: FaultKind)
    requires ResolvedAll(body, x, Outside) && Charges(code, fault)
    requires Diagnostic(code, x) in CheckFunction(body, returnsValue).diagnostics
    ensures Located(START, x, Outside, -1) && Named(START, CheckBlock(body, START), x, fault)
  {
    hide CheckBlock, PopScopes, Only, Mentioned, KeepScopeReports, TaskScopeReports, Named, Charges;
    var s1 := CheckBlock(body, START);
    var s2 := ReportIf(returnsValue && !s1.terminated, s1, MissingReturn, NO_SYMBOL);
    BeginLocated(x);
    BlockTracks(body, START, x, Outside, -1);
    assert Located(s2, x, Outside, -1);
    PopSilent(s2, x, fault);
    PopQuiet(s2);
    NamedInList(PopScopes(s2), code, x, fault);
    NamedSplit(START, s2, PopScopes(s2), x, fault);
    assert Structural(MissingReturn);
    ChargesNobody(returnsValue && !s1.terminated, s1, MissingReturn, x, fault);
    NamedSplit(START, s1, s2, x, fault);
  }

  lemma NamedInList(r: State, code: Code, x: Id, fault: FaultKind)
    requires Diagnostic(code, x) in r.diagnostics && Charges(code, fault)
    ensures Named(START, r, x, fault)
  {
    hide Charges;
    var i :| 0 <= i < |r.diagnostics| && r.diagnostics[i] == Diagnostic(code, x);
    assert Tells(r.diagnostics[i], x, fault);
  }

  lemma BeginLocated(x: Id)
    ensures Located(START, x, Outside, -1)
  {
  }

  lemma PopSilent(st: State, x: Id, fault: FaultKind)
    requires Located(st, x, Outside, -1)
    ensures !Named(st, PopScopes(st), x, fault)
  {
    hide KeepScopeReports, TaskScopeReports, Mentioned, Named, PopScopes, Only;
    var top := |st.flowScopes| - 1;
    LocatedReady(st, x, Outside, -1);
    PopLists(st);
    var t := TaskScopeReports(From(st.flowScopes, top), st.flow);
    var u := KeepScopeReports(From(st.keepScopes, top), st.keep);
    NotMentioned([], x, fault);
    if st.terminated {
      NamedIs(st, PopScopes(st), [], x, fault);
    } else {
      NamedIs(st, PopScopes(st), t + u, x, fault);
      if Mentioned(t + u, x, fault) {
        MentionedSplit(t, u, x, fault);
        ScopesName(st, top, x, fault, Outside, -1);
      }
    }
  }

  /** Text that does not stop can be run to its end, and text that stops cannot. */
  lemma StopsExactly(body: Stmts, x: Id)
    requires ResolvedAll(body, x, Outside) && RunnableAll(body, x, false)
    ensures StopsAll(body, false) <==> forall cs :: RunFunction(body, cs).outcome != Normal
  {
    hide CheckBlock, RunText, RunBlock, StopsAll, RunnableAll, ResolvedAll, Told, FlowShown, KeepShown;
    BlockStops(body, START);
    if StopsAll(body, false) {
      forall cs ensures RunFunction(body, cs).outcome != Normal { TerminatedBlock(body, cs, EMPTY, START); }
    } else {
      StartsHere(x);
      BlockExact(body, START, x, Dropped, Outside, -1, iset{EMPTY});
      var n := AwayReached(CheckBlock(body, START), x, Post(Body(body), iset{EMPTY}, false));
      assert Gets(Body(body), iset{EMPTY}, false, n);
      assert Yields(Body(body), EMPTY, Run(Normal, [], n));
      var cs :| RunText(Body(body), cs, EMPTY) == Run(Normal, [], n);
      BodyRuns(body, cs, EMPTY);
      assert RunFunction(body, cs).outcome == Normal;
    }
  }

  lemma StartsHere(x: Id)
    ensures Here(START, x, Outside, -1, iset{EMPTY})
  {
    BeginLocated(x);
    assert Stands(Away, EMPTY, x, Outside);
    assert Reached(iset{EMPTY}, Away, x, Outside);
  }

  lemma AwayReached(r: State, x: Id, N: iset<Store>) returns (n: Store)
    requires Shown(r.keep, r.flow, x, Outside, N)
    ensures n in N
  {
    n :| n in N && Stands(Away, n, x, Outside);
  }

  /** The precision theorem.  Whatever the checker charges the text with about a local, some run
      of the function does: it frees it twice, dereferences it freed, overwrites it or leaves it
      behind while it owns something, awaits it twice, or reads it before it is assigned. */
  lemma ReportIsHarm(body: Stmts, returnsValue: bool, code: Code, x: Id, fault: FaultKind)
    requires ResolvedAll(body, x, Outside) && RunnableAll(body, x, false) && Charges(code, fault)
    requires Diagnostic(code, x) in CheckFunction(body, returnsValue).diagnostics
    ensures exists cs :: Fault(fault, x) in RunFunction(body, cs).store.faults
  {
    hide CheckBlock, RunAll, RunnableAll, ResolvedAll, Only, Post, CheckFunction, Named;
    var from := iset{EMPTY};
    FunctionNames(body, returnsValue, code, x, fault);
    StartsHere(x);
    BlockExact(body, START, x, fault, Outside, -1, from);
    var m, cs :| m in from && Hurt(RunText(Body(body), cs, m), x, fault, Outside, false);
    BodyRuns(body, cs, EMPTY);
    assert Fault(fault, x) in RunFunction(body, cs).store.faults;
  }

  /** A report that charges the text with nothing is one on its structure. */
  lemma ChargesSomething(code: Code) returns (fault: FaultKind)
    ensures Structural(code) || Charges(code, fault)
  {
    fault := match code
      case RawDeleteRequired | TaskNotAwaited | TaskMayNotBeAwaited => Dropped
      case RawOverwrite => Overwritten
      case RawDoubleDelete | DoubleDelete | DeleteExpired | DeleteMaybeInvalid => DoubleFree
      case NullDereference | MaybeNullDereference => NullDereferenced
      case UseAfterDelete | ExpiredDereference | MaybeInvalidDereference => FreedDereferenced
      case TaskDoubleAwait | TaskMaybeDoubleAwait => DoubleAwaited
      case _ => UnwrittenRead;
  }

  /** The text has none of the mistakes that are reported without naming a local. */
  ghost predicate WellStructured(body: Stmts) {
    forall code | Structural(code) :: !WrongAll(body, code, false, false)
  }

  /** Together with soundness: the checker accepts exactly the functions whose text has no
      structural mistake, no run of which does any local any harm, and, when a result is due, no
      run of which comes to the end without one. */
  lemma AcceptedExactlyWhenSafe(body: Stmts, returnsValue: bool)
    requires ResolvedBody(body) && forall x: Id :: CoveredIn(body, x) && RunnableAll(body, x, false)
    ensures Accepted(body, returnsValue) <==>
              && WellStructured(body)
              && (forall cs :: RunFunction(body, cs).store.faults == {})
              && (returnsValue ==> forall cs :: RunFunction(body, cs).outcome != Normal)
  {
    hide CheckFunction, RunFunction, RunnableAll, CoveredIn, ResolvedAll, WrongAll, StopsAll, Structural, Charges;
    assert ResolvedAll(body, 0, Outside) && RunnableAll(body, 0, false);
    StopsExactly(body, 0);
    if Accepted(body, returnsValue) {
      forall cs ensures RunFunction(body, cs).store.faults == {} { AcceptedReleasesAll(body, returnsValue, cs); }
      forall code | Structural(code) ensures !WrongAll(body, code, false, false) {
        FunctionReports(body, returnsValue, code);
      }
      MissingIsStructural(body, returnsValue);
    } else {
      RefusedFor(body, returnsValue);
    }
  }

  lemma MissingIsStructural(body: Stmts, returnsValue: bool)
    ensures Accepted(body, returnsValue) && returnsValue ==> StopsAll(body, false)
  {
    hide CheckFunction, WrongAll, StopsAll;
    FunctionReports(body, returnsValue, MissingReturn);
  }

  /** What a function is refused for. */
  lemma RefusedFor(body: Stmts, returnsValue: bool)
    requires ResolvedBody(body) && forall x: Id :: RunnableAll(body, x, false)
    requires !Accepted(body, returnsValue)
    ensures || !WellStructured(body) || (returnsValue && !StopsAll(body, false))
            || exists cs :: RunFunction(body, cs).store.faults != {}
  {
    hide CheckFunction, RunFunction, RunnableAll, ResolvedAll, WrongAll, StopsAll, Charges, Structural;
    var d := CheckFunction(body, returnsValue).diagnostics[0];
    var fault := ChargesSomething(d.code);
    if Structural(d.code) {
      FunctionReports(body, returnsValue, d.code);
    } else {
      assert RunnableAll(body, d.x, false) && ResolvedAll(body, d.x, Outside) && d == Diagnostic(d.code, d.x);
      ReportIsHarm(body, returnsValue, d.code, d.x, fault);
      var cs :| Fault(fault, d.x) in RunFunction(body, cs).store.faults;
      assert RunFunction(body, cs).store.faults != {};
    }
  }
}
