/** Merging paths is a join.  The states of a local are ordered by how much they leave
    open; at every join the checker computes the least state above those of all paths, so
    neither the order nor the grouping of the paths matters. */
module FlowJoin {
  import opened FlowSyntax
  import opened FlowState

  predicate KeepBelow(a: Keep, b: Keep) { a == b || b == MaybeDeleted }

  predicate InitBelow(a: Init, b: Init) { a == b || b == MaybeUninitialized }

  predicate ValidityBelow(a: Validity, b: Validity) {
    a == b || b == MaybeInvalid || (b == MaybeNull && a in {Null, LivePointer})
  }

  predicate TaskBelow(a: TaskState, b: TaskState) {
    a == b || b == MaybePending || (b == UnknownTask && a in {NotTask, Awaited})
  }

  predicate FlowBelow(a: Flow, b: Flow) {
    InitBelow(a.init, b.init) && ValidityBelow(a.validity, b.validity) && TaskBelow(a.task, b.task)
  }

  /** The validities of a local known to be a pointer; Unknown has no place in the order. */
  predicate PointerState(v: Validity) { v != NotPointer && v != Unknown }

  /** Every path has `x` as a pointer, or none has. */
  ghost predicate Regular(x: Id, base: Flow, paths: seq<FlowMap>) {
    || (forall i | 0 <= i < |paths| :: PointerState(FlowAt(paths[i], x, base).validity))
    || (forall i | 0 <= i < |paths| :: FlowAt(paths[i], x, base).validity == NotPointer)
  }

  ghost predicate KeepBound(x: Id, base: Keep, paths: seq<KeepMap>, u: Keep) {
    forall i | 0 <= i < |paths| :: KeepBelow(KeepAt(paths[i], x, base), u)
  }

  ghost predicate FlowBound(x: Id, base: Flow, paths: seq<FlowMap>, u: Flow) {
    forall i | 0 <= i < |paths| :: FlowBelow(FlowAt(paths[i], x, base), u)
  }

  lemma {:induction false} JoinKeepIsLeast(x: Id, base: Keep, paths: seq<KeepMap>)
    requires |paths| > 0
    ensures KeepBound(x, base, paths, JoinKeep(x, base, paths))
    ensures forall u | KeepBound(x, base, paths, u) :: KeepBelow(JoinKeep(x, base, paths), u)
  {
    if |paths| > 1 {
      var front := ButLast(paths);
      JoinKeepIsLeast(x, base, front);
      assert forall i | 0 <= i < |front| :: paths[i] == front[i];
      forall u | KeepBound(x, base, paths, u) ensures KeepBelow(JoinKeep(x, base, paths), u) {
        assert KeepBound(x, base, front, u);
      }
    }
  }

  lemma MergeIsLeast(a: Flow, b: Flow)
    requires (PointerState(a.validity) && PointerState(b.validity)) || a.validity == b.validity == NotPointer
    ensures var r := MergeFlow(a, b);
            && FlowBelow(a, r) && FlowBelow(b, r) && (forall u | FlowBelow(a, u) && FlowBelow(b, u) :: FlowBelow(r, u))
            && if a.validity == NotPointer then r.validity == NotPointer else PointerState(r.validity)
  {
  }

  lemma BelowTransitive(a: Flow, b: Flow, c: Flow)
    requires FlowBelow(a, b) && FlowBelow(b, c)
    ensures FlowBelow(a, c)
  {
  }

  lemma {:induction false} JoinFlowIsLeast(x: Id, base: Flow, paths: seq<FlowMap>)
    requires |paths| > 0 && Regular(x, base, paths)
    ensures FlowBound(x, base, paths, JoinFlow(x, base, paths))
    ensures forall u | FlowBound(x, base, paths, u) :: FlowBelow(JoinFlow(x, base, paths), u)
    ensures var v := JoinFlow(x, base, paths).validity;
            if FlowAt(paths[0], x, base).validity == NotPointer then v == NotPointer else PointerState(v)
  {
    hide FlowBelow, MergeFlow, FlowAt, PointerState;
    if |paths| == 1 {
      OneIsLeast(FlowAt(paths[0], x, base));
    } else {
      var front := ButLast(paths);
      assert forall i | 0 <= i < |front| :: paths[i] == front[i];
      assert Regular(x, base, front);
      JoinFlowIsLeast(x, base, front);
      var a, r := JoinFlow(x, base, front), JoinFlow(x, base, paths);
      MergeIsLeast(a, FlowAt(Last(paths), x, base));
      forall i | 0 <= i < |paths| ensures FlowBelow(FlowAt(paths[i], x, base), r) {
        if i < |front| { BelowTransitive(FlowAt(front[i], x, base), a, r); }
      }
      forall u | FlowBound(x, base, paths, u) ensures FlowBelow(r, u) {
        assert FlowBound(x, base, front, u) && FlowBelow(FlowAt(paths[|paths| - 1], x, base), u);
      }
    }
  }

  lemma OneIsLeast(a: Flow)
    ensures FlowBelow(a, a)
  {
  }

  // ---- Which states occur decides, not their order ----

  function KeepsOf(x: Id, base: Keep, paths: seq<KeepMap>): set<Keep> {
    set i | 0 <= i < |paths| :: KeepAt(paths[i], x, base)
  }

  function FlowsOf(x: Id, base: Flow, paths: seq<FlowMap>): set<Flow> {
    set i | 0 <= i < |paths| :: FlowAt(paths[i], x, base)
  }

  /** Null, a live (or maybe null) pointer and a state that is no pointer state, and nothing
      dangerous to absorb them: then it matters what null meets first. */
  predicate Mixed(states: set<Flow>) {
    && (forall f | f in states :: !Dangerous(f.validity))
    && (exists f :: f in states && !PointerState(f.validity))
    && (exists f :: f in states && f.validity == Null)
    && (exists f :: f in states && f.validity in {LivePointer, MaybeNull})
  }

  /** What the merge of some states comes to, whatever their order; `one` is any of them. */
  function InitOf(states: set<Flow>, one: Flow): Init {
    if forall f | f in states :: f.init == one.init then one.init else MaybeUninitialized
  }

  function TaskOf(states: set<Flow>, one: Flow): TaskState {
    if forall f | f in states :: f.task == one.task then one.task
    else if exists f :: f in states && f.task in {Pending, MaybePending} then MaybePending
    else UnknownTask
  }

  function ValidityOf(states: set<Flow>, one: Flow): Validity {
    if forall f | f in states :: f.validity == one.validity then one.validity
    else if exists f :: f in states && Dangerous(f.validity) then MaybeInvalid
    else if forall f | f in states :: Nullable(f.validity) then MaybeNull
    else if exists f :: f in states && f.validity == Null then MaybeInvalid
    else Unknown
  }

  lemma {:induction false} JoinIsSummary(x: Id, base: Flow, paths: seq<FlowMap>)
    requires |paths| > 0
    ensures var (states, one, r) := (FlowsOf(x, base, paths), FlowAt(paths[0], x, base), JoinFlow(x, base, paths));
            && r.init == InitOf(states, one) && r.task == TaskOf(states, one)
            && (r.validity == one.validity || r.validity in {MaybeInvalid, MaybeNull, Unknown})
            && (Mixed(states) || r.validity == ValidityOf(states, one))
  {
    var states, one := FlowsOf(x, base, paths), FlowAt(paths[0], x, base);
    assert one in states;
    if |paths| == 1 {
      assert forall f | f in states :: f == one;
    } else {
      var front, last := ButLast(paths), FlowAt(Last(paths), x, base);
      JoinIsSummary(x, base, front);
      assert FlowAt(front[0], x, base) == one;
      OneMore(x, base, paths);
      MergeSummary(FlowsOf(x, base, front), one, last, JoinFlow(x, base, front));
    }
  }

  lemma OneMore(x: Id, base: Flow, paths: seq<FlowMap>)
    requires |paths| > 1
    ensures FlowsOf(x, base, paths) == FlowsOf(x, base, ButLast(paths)) + {FlowAt(Last(paths), x, base)}
    ensures FlowAt(paths[0], x, base) in FlowsOf(x, base, ButLast(paths))
  {
    var front := ButLast(paths);
    assert forall i | 0 <= i < |front| :: FlowAt(paths[i], x, base) == FlowAt(front[i], x, base);
    forall f | f in FlowsOf(x, base, front) ensures f in FlowsOf(x, base, paths) {
      var i :| 0 <= i < |front| && f == FlowAt(front[i], x, base);
      assert f == FlowAt(paths[i], x, base);
    }
    assert FlowAt(paths[|paths| - 1], x, base) in FlowsOf(x, base, paths);
    assert front[0] == paths[0];
  }

  lemma MergeSummary(states: set<Flow>, one: Flow, last: Flow, r: Flow)
    requires one in states && r.init == InitOf(states, one) && r.task == TaskOf(states, one)
    requires r.validity == one.validity || r.validity in {MaybeInvalid, MaybeNull, Unknown}
    requires Mixed(states) || r.validity == ValidityOf(states, one)
    ensures var (more, q) := (states + {last}, MergeFlow(r, last));
            && q.init == InitOf(more, one) && q.task == TaskOf(more, one)
            && (q.validity == one.validity || q.validity in {MaybeInvalid, MaybeNull, Unknown})
            && (Mixed(more) || q.validity == ValidityOf(more, one))
  {
    hide InitOf, TaskOf, ValidityOf, Mixed, MergeInit, MergeTask, MergeValidity;
    SummaryOfInit(states, one, last);
    SummaryOfTask(states, one, last);
    SummaryOfValidity(states, one, last, r.validity);
  }

  lemma SummaryOfInit(states: set<Flow>, one: Flow, last: Flow)
    requires one in states
    ensures MergeInit(InitOf(states, one), last.init) == InitOf(states + {last}, one)
  {
  }

  lemma SummaryOfTask(states: set<Flow>, one: Flow, last: Flow)
    requires one in states
    ensures MergeTask(TaskOf(states, one), last.task) == TaskOf(states + {last}, one)
  {
  }

  lemma SummaryOfValidity(states: set<Flow>, one: Flow, last: Flow, v: Validity)
    requires one in states && (v == one.validity || v in {MaybeInvalid, MaybeNull, Unknown})
    requires Mixed(states) || v == ValidityOf(states, one)
    ensures var (more, u) := (states + {last}, MergeValidity(v, last.validity));
            && (u == one.validity || u in {MaybeInvalid, MaybeNull, Unknown})
            && (Mixed(more) || u == ValidityOf(more, one))
  {
  }

  /** Reordering, regrouping or repeating paths changes no delete obligation, no
      initialization and no task state, and no validity unless the states are mixed. */
  lemma JoinIgnoresOrder(x: Id, k: Keep, f: Flow, keeps: seq<KeepMap>, keeps': seq<KeepMap>,
                         flows: seq<FlowMap>, flows': seq<FlowMap>)
    requires |keeps| > 0 && |keeps'| > 0 && |flows| > 0 && |flows'| > 0
    requires KeepsOf(x, k, keeps) == KeepsOf(x, k, keeps') && FlowsOf(x, f, flows) == FlowsOf(x, f, flows')
    ensures JoinKeep(x, k, keeps) == JoinKeep(x, k, keeps')
    ensures var q, r := JoinFlow(x, f, flows), JoinFlow(x, f, flows');
            && q.init == r.init && q.task == r.task
            && (!Mixed(FlowsOf(x, f, flows)) ==> q.validity == r.validity)
  {
    SameBounds(x, k, keeps, keeps');
    SameBounds(x, k, keeps', keeps);
    JoinKeepIsLeast(x, k, keeps);
    JoinKeepIsLeast(x, k, keeps');
    JoinIsSummary(x, f, flows);
    JoinIsSummary(x, f, flows');
    SameSummary(FlowsOf(x, f, flows), FlowAt(flows[0], x, f), FlowAt(flows'[0], x, f));
  }

  lemma SameSummary(states: set<Flow>, one: Flow, other: Flow)
    requires one in states && other in states
    ensures InitOf(states, one) == InitOf(states, other) && TaskOf(states, one) == TaskOf(states, other)
    ensures ValidityOf(states, one) == ValidityOf(states, other)
  {
  }

  lemma SameBounds(x: Id, k: Keep, keeps: seq<KeepMap>, keeps': seq<KeepMap>)
    requires KeepsOf(x, k, keeps) == KeepsOf(x, k, keeps')
    ensures forall u | KeepBound(x, k, keeps, u) :: KeepBound(x, k, keeps', u)
  {
    forall j | 0 <= j < |keeps'|
      ensures exists i :: 0 <= i < |keeps| && KeepAt(keeps[i], x, k) == KeepAt(keeps'[j], x, k)
    {
      assert KeepAt(keeps'[j], x, k) in KeepsOf(x, k, keeps);
    }
  }

  // ---- Exactly when the order matters ----

  /** Paths on which `x` has the given states, one path a state. */
  lemma {:induction false} PathsFor(x: Id, base: Flow, states: set<Flow>) returns (paths: seq<FlowMap>)
    ensures FlowsOf(x, base, paths) == states
  {
    if states == {} {
      paths := [];
    } else {
      var f :| f in states;
      var rest := PathsFor(x, base, states - {f});
      paths := rest + [map[x := f]];
      Appended(x, base, rest, [map[x := f]]);
      assert FlowsOf(x, base, [map[x := f]]) == {f} by { assert FlowAt([map[x := f]][0], x, base) == f; }
    }
  }

  lemma Appended(x: Id, base: Flow, a: seq<FlowMap>, b: seq<FlowMap>)
    ensures FlowsOf(x, base, a + b) == FlowsOf(x, base, a) + FlowsOf(x, base, b)
  {
    var p := a + b;
    forall f | f in FlowsOf(x, base, a) ensures f in FlowsOf(x, base, p) {
      var i :| 0 <= i < |a| && f == FlowAt(a[i], x, base);
      assert f == FlowAt(p[i], x, base);
    }
    forall f | f in FlowsOf(x, base, b) ensures f in FlowsOf(x, base, p) {
      var i :| 0 <= i < |b| && f == FlowAt(b[i], x, base);
      assert f == FlowAt(p[|a| + i], x, base);
    }
  }

  /** States that are no pointer states, merged in last, leave the pointer possibly unknown
      but not invalid. */
  lemma {:induction false} OddLast(x: Id, base: Flow, a: seq<FlowMap>, b: seq<FlowMap>)
    requires |a| > 0 && JoinFlow(x, base, a).validity in {MaybeNull, Unknown}
    requires forall i | 0 <= i < |b| :: FlowAt(b[i], x, base).validity in {NotPointer, Unknown}
    ensures JoinFlow(x, base, a + b).validity in {MaybeNull, Unknown}
    decreases |b|
  {
    if |b| == 0 {
      assert a + b == a;
    } else {
      assert ButLast(a + b) == a + ButLast(b) && Last(a + b) == Last(b);
      OddLast(x, base, a, ButLast(b));
    }
  }

  /** Null and a state that is no pointer state, merged first, make it invalid for good. */
  lemma {:induction false} InvalidFirst(x: Id, base: Flow, a: seq<FlowMap>, b: seq<FlowMap>)
    requires |a| > 0 && JoinFlow(x, base, a).validity == MaybeInvalid
    ensures JoinFlow(x, base, a + b).validity == MaybeInvalid
    decreases |b|
  {
    if |b| == 0 {
      assert a + b == a;
    } else {
      assert ButLast(a + b) == a + ButLast(b) && Last(a + b) == Last(b);
      InvalidFirst(x, base, a, ButLast(b));
    }
  }

  ghost predicate Differ(x: Id, base: Flow, flows: seq<FlowMap>, flows': seq<FlowMap>, states: set<Flow>) {
    && |flows| > 0 && |flows'| > 0
    && FlowsOf(x, base, flows) == states && FlowsOf(x, base, flows') == states
    && JoinFlow(x, base, flows).validity != JoinFlow(x, base, flows').validity
  }

  /** The validity after a join depends on the order of the paths if and only if their
      states are mixed. */
  lemma OrderMattersExactly(x: Id, base: Flow, states: set<Flow>)
    ensures (exists flows, flows' :: Differ(x, base, flows, flows', states)) <==> Mixed(states)
  {
    hide JoinFlow, FlowsOf, Mixed;
    forall flows, flows' | Differ(x, base, flows, flows', states) ensures Mixed(states) {
      JoinIgnoresOrder(x, Live, base, [map[]], [map[]], flows, flows');
    }
    if Mixed(states) { MixedDiffers(x, base, states); }
  }

  lemma MixedDiffers(x: Id, base: Flow, states: set<Flow>)
    requires Mixed(states)
    ensures exists flows, flows' :: Differ(x, base, flows, flows', states)
  {
    hide JoinFlow, FlowsOf;
    var odd := set f | f in states && !PointerState(f.validity);
    var first := PathsFor(x, base, states - odd);
    var last := PathsFor(x, base, odd);
    Appended(x, base, first, last);
    assert states - odd + odd == states;
    NullablesFirst(x, base, states, odd, first);
    OddPaths(x, base, last);
    OddLast(x, base, first, last);
    var w, n :| w in odd && n in states && n.validity == Null;
    InvalidStart(x, base, w, n, first + last);
    assert {w, n} + states == states;
    assert Differ(x, base, [map[x := w], map[x := n]] + (first + last), first + last, states);
  }

  lemma OddPaths(x: Id, base: Flow, paths: seq<FlowMap>)
    requires forall f | f in FlowsOf(x, base, paths) :: !PointerState(f.validity)
    ensures forall i | 0 <= i < |paths| :: FlowAt(paths[i], x, base).validity in {NotPointer, Unknown}
  {
    assert forall i | 0 <= i < |paths| :: FlowAt(paths[i], x, base) in FlowsOf(x, base, paths);
  }

  lemma InvalidStart(x: Id, base: Flow, w: Flow, n: Flow, paths: seq<FlowMap>)
    requires w.validity in {NotPointer, Unknown} && n.validity == Null
    ensures var all := [map[x := w], map[x := n]] + paths;
            && FlowsOf(x, base, all) == {w, n} + FlowsOf(x, base, paths)
            && JoinFlow(x, base, all).validity == MaybeInvalid
  {
    hide JoinFlow, FlowsOf;
    Starts(x, base, w, n);
    InvalidFirst(x, base, [map[x := w], map[x := n]], paths);
    Appended(x, base, [map[x := w], map[x := n]], paths);
  }

  lemma Starts(x: Id, base: Flow, w: Flow, n: Flow)
    requires w.validity in {NotPointer, Unknown} && n.validity == Null
    ensures var start := [map[x := w], map[x := n]];
            FlowsOf(x, base, start) == {w, n} && JoinFlow(x, base, start).validity == MaybeInvalid
  {
    var start := [map[x := w], map[x := n]];
    assert FlowAt(start[0], x, base) == w && FlowAt(start[1], x, base) == n;
    assert ButLast(start) == [map[x := w]] && JoinFlow(x, base, ButLast(start)) == w;
  }

  lemma NullablesFirst(x: Id, base: Flow, states: set<Flow>, odd: set<Flow>, first: seq<FlowMap>)
    requires Mixed(states) && odd == (set f | f in states && !PointerState(f.validity))
    requires FlowsOf(x, base, first) == states - odd
    ensures |first| > 0 && JoinFlow(x, base, first).validity == MaybeNull
  {
    hide JoinFlow, InitOf, TaskOf;
    var n, p :| n in states && n.validity == Null && p in states && p.validity in {LivePointer, MaybeNull};
    assert n in FlowsOf(x, base, first) && p in FlowsOf(x, base, first);
    assert FlowAt(first[0], x, base) in FlowsOf(x, base, first);
    JoinIsSummary(x, base, first);
  }

  /** For validities alone: merging two does not depend on their order, and merging three
      depends on the grouping exactly when a state that is no pointer state is merged from
      outside with null and a live (or maybe null) pointer. */
  lemma GroupingMattersExactly(a: Validity, b: Validity, c: Validity)
    ensures MergeValidity(a, b) == MergeValidity(b, a)
    ensures MergeValidity(MergeValidity(a, b), c) == MergeValidity(a, MergeValidity(b, c)) <==>
            !(NullSplit(a, b, c) || NullSplit(c, b, a))
  {
  }

  predicate NullSplit(w: Validity, p: Validity, q: Validity) {
    !PointerState(w) && ((p == Null && q in {LivePointer, MaybeNull}) || (q == Null && p in {LivePointer, MaybeNull}))
  }
}
