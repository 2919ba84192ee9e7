/** What the tables say about the storage behind one local, and what one operation does to
    both. */
module FlowCells {
  import opened FlowSyntax
  import opened FlowState
  import opened FlowChecker
  import opened FlowFrame
  import opened FlowTracking
  import opened FlowFragment
  import opened FlowUntouched
  import opened FlowCoherence
  import opened FlowJoin
  import opened FlowDoom
  import opened Runs

  /** Pointers and handles in the store are all different, and none is yet to come. */
  ghost predicate Distinct(m: Store) {
    && (forall x | x in m.env ::
          && (m.env[x].Ptr? ==> m.env[x].addr < m.next)
          && (m.env[x].Handle? ==> m.env[x].task < m.next))
    && (forall x, y | x in m.env && y in m.env && x != y ::
          && (m.env[x].Ptr? && m.env[y].Ptr? ==> m.env[x].addr != m.env[y].addr)
          && (m.env[x].Handle? && m.env[y].Handle? ==> m.env[x].task != m.env[y].task))
  }

  /** No harm has come to `x`, except that an exception may have dropped it earlier. */
  ghost predicate Safe(m: Store, x: Id, dropped: bool) {
    forall k: FaultKind :: Fault(k, x) in m.faults ==> dropped && k == Dropped
  }

  ghost predicate NoNewFaults(m: Store, n: Store, x: Id) {
    forall k: FaultKind :: Fault(k, x) in n.faults ==> Fault(k, x) in m.faults
  }

  /** The storage has the shape of the declaration. */
  predicate Shaped(kind: Kind, m: Store, x: Id) {
    x in m.env &&
    match kind
    case RawOwner => m.env[x].Nil? || m.env[x].Ptr?
    case Task => m.env[x].Handle?
    case Plain => m.env[x].Local?
    case Exception => m.env[x].Local?
  }

  predicate KeepHolds(k: Keep, m: Store, x: Id) {
    (k == Live ==> Holds(m, x)) && (k == Deleted ==> !Holds(m, x))
  }

  /** `blind` drops what is known about initialization. */
  predicate FlowHolds(kind: Kind, f: Flow, m: Store, x: Id, blind: bool) {
    Shaped(kind, m, x) &&
    match kind
    case RawOwner =>
      && (f.validity == LivePointer ==> Holds(m, x))
      && (f.validity == DeletedPointer ==> !Holds(m, x))
      && (f.validity == Null ==> m.env[x].Nil?)
      && (f.validity == MaybeNull ==> m.env[x].Nil? || Holds(m, x))
    case Task => (f.task == Pending ==> Holds(m, x)) && (f.task == Awaited ==> !Holds(m, x))
    case Plain => f.init == Initialized && !blind ==> m.env[x].written
    case Exception => true
  }

  /** The tables are right about `x`. */
  predicate Right(keep: KeepMap, flow: FlowMap, x: Id, kind: Kind, m: Store, blind: bool) {
    && x in flow && FlowHolds(kind, flow[x], m, x, blind)
    && (kind == RawOwner ==> x in keep && KeepHolds(keep[x], m, x))
  }

  lemma RegularPaths(x: Id, base: Flow, flows: seq<FlowMap>, kind: Kind, nulled: bool)
    requires kind != Exception
    requires forall j | 0 <= j < |flows| :: x in flows[j] && FlowOk(kind, nulled, flows[j][x])
    ensures Regular(x, base, flows)
  {
  }

  /** A path that is right makes the join right. */
  lemma JoinRight(keep: KeepMap, flow: FlowMap, keeps: seq<KeepMap>, flows: seq<FlowMap>,
                  i: nat, j: nat, x: Id, kind: Kind, nulled: bool, m: Store, blind: bool)
    requires x in flow && (kind == RawOwner ==> x in keep)
    requires forall j | 0 <= j < |flows| :: x in flows[j] && FlowOk(kind, nulled, flows[j][x])
    requires j < |flows| && FlowHolds(kind, flows[j][x], m, x, blind)
    requires kind == RawOwner ==> i < |keeps| && x in keeps[i] && KeepHolds(keeps[i][x], m, x)
    ensures Right(MergeKeepPaths(keep, keeps), MergeFlowPaths(flow, flows), x, kind, m, blind)
  {
    if kind != Exception {
      RegularPaths(x, flow[x], flows, kind, nulled);
      JoinFlowIsLeast(x, flow[x], flows);
      assert FlowBelow(FlowAt(flows[j], x, flow[x]), JoinFlow(x, flow[x], flows));
    }
    if kind == RawOwner {
      JoinKeepIsLeast(x, keep[x], keeps);
      assert KeepBelow(KeepAt(keeps[i], x, keep[x]), JoinKeep(x, keep[x], keeps));
    }
  }

  /** Released according to the tables means released in the store. */
  lemma ReleasedCell(st: State, x: Id, kind: Kind, nulled: bool, m: Store, blind: bool)
    requires Coherent(st, x, kind, nulled) && Right(st.keep, st.flow, x, kind, m, blind)
    requires Released(st, x, kind)
    ensures !Holds(m, x)
    ensures !Doomed(st, x, kind)
  {
  }

  /** The storage of `x`, and whether it owns something, are the same. */
  predicate Unchanged(m: Store, n: Store, x: Id) {
    x in m.env && x in n.env && n.env[x] == m.env[x] && (Holds(n, x) <==> Holds(m, x))
  }

  /** What the tables say of an owner or a task does not depend on anything else. */
  lemma RightUnchanged(keep: KeepMap, flow: FlowMap, keep': KeepMap, flow': FlowMap, x: Id, kind: Kind, m: Store,
                       n: Store, blind: bool)
    requires Owned(Inside(kind)) && Right(keep, flow, x, kind, m, blind)
    requires SameEntries(keep, flow, keep', flow', x, kind) && Unchanged(m, n, x)
    ensures Right(keep', flow', x, kind, n, blind)
  {
  }

  // ---- One operation ----

  lemma ExecDistinct(op: Op, y: Id, m: Store)
    requires Distinct(m)
    ensures Distinct(Exec(op, y, m))
  {
  }

  /** An operation on another local leaves `x` alone. */
  lemma ExecOther(op: Op, y: Id, m: Store, x: Id)
    requires Distinct(m) && x != y
    ensures var r := Exec(op, y, m);
            && (x in r.env <==> x in m.env)
            && (x in m.env ==> r.env[x] == m.env[x] && (Holds(r, x) <==> Holds(m, x)))
            && (forall k :: Fault(k, x) in r.faults <==> Fault(k, x) in m.faults)
  {
  }

  lemma CheckOther(op: Op, y: Id, st: State, x: Id)
    requires x != y
    ensures var r := CheckOp(op, y, st);
            && (x in r.keep <==> x in st.keep) && (x in st.keep ==> r.keep[x] == st.keep[x])
            && (x in r.flow <==> x in st.flow) && (x in st.flow ==> r.flow[x] == st.flow[x])
  {
  }

  /** A declaration that runs makes the tables right. */
  lemma ExecDeclares(op: Op, st: State, x: Id, m: Store, dropped: bool)
    requires Declares(op) && Distinct(m) && Ready(st) && Safe(m, x, dropped) && x !in m.env
    ensures var r := CheckOp(op, x, st);
            var q := Exec(op, x, m);
            Right(r.keep, r.flow, x, KindOf(op), q, false) && Safe(q, x, dropped)
  {
  }

  /** An operation on `x` that is not reported does no harm and keeps the tables right. */
  lemma ExecOwn(op: Op, st: State, x: Id, kind: Kind, nulled: bool, m: Store, blind: bool, dropped: bool)
    requires Distinct(m) && Safe(m, x, dropped) && !Declares(op) && kind == KindOf(op)
    requires Coherent(st, x, kind, nulled) && Right(st.keep, st.flow, x, kind, m, blind)
    requires x in st.keep <==> kind == RawOwner
    requires blind ==> op != Read
    requires Quiet(st, CheckOp(op, x, st))
    ensures var r := CheckOp(op, x, st);
            var q := Exec(op, x, m);
            && Right(r.keep, r.flow, x, kind, q, blind) && Safe(q, x, dropped)
            && (kind == Plain && m.env[x].written ==> q.env[x].written)
            && (kind == RawOwner && !Does(op, Assigning) && st.keep[x] == Deleted ==> Unchanged(m, q, x))
            && (Owned(Inside(kind)) && !Does(op, Changing) ==> Unchanged(m, q, x))
  {
  }

  /** Reported or not, an operation on a pointer keeps the value table right about null: it
      says null exactly when the pointer is, and then using it is reported as a use of null
      exactly when that is what the run does. */
  lemma NullIsTracked(op: Op, st: State, x: Id, m: Store)
    requires KindOf(op) == RawOwner && !Declares(op) && x in st.flow && x in m.env
    requires st.flow[x].validity == Null <==> m.env[x] == Nil
    requires st.flow[x].validity != MaybeNull
    ensures var r, q := CheckOp(op, x, st), Exec(op, x, m);
            && x in r.flow && x in q.env && r.flow[x].validity != MaybeNull
            && (r.flow[x].validity == Null <==> q.env[x] == Nil)
    ensures op == Deref && Fault(NullDereferenced, x) !in m.faults ==>
              (Fault(NullDereferenced, x) in Exec(op, x, m).faults <==>
               Diagnostic(NullDereference, x) in DerefReports(x, st))
  {
  }
}
