/** Which stores the runs of a piece of text can reach, and whether some run harms a local:
    what the reports of the checker are measured against. */
module FlowReach {
  import opened FlowSyntax
  import opened FlowCells
  import opened RunLedger
  import opened Runs

  /** One statement, or the rest of a block whose locals are `ids`. */
  datatype Text = One(s: Stmt) | Rest(ss: Stmts, ids: set<Id>)

  function Body(body: Stmts): Text { Rest(body, Decls(body)) }

  function RunText(t: Text, cs: seq<Choice>, m: Store): Run {
    match t
    case One(s) => RunStmt(s, cs, m)
    case Rest(ss, ids) => LeaveUnlessCut(ids, RunAll(ss, cs, m))
  }

  ghost predicate Yields(t: Text, m: Store, q: Run) { exists cs :: RunText(t, cs, m) == q }

  /** From `m` the text can end in `n`, whatever the oracle says afterwards. */
  ghost predicate Leads(t: Text, m: Store, out: Outcome, n: Store) {
    forall rest: seq<Choice> :: Yields(t, m, Run(out, rest, n))
  }

  /** Coming to the end, or going to the end of the loop around. */
  predicate Ends(out: Outcome, exits: bool) { if exits then out == Broke || out == Continued else out == Normal }

  ghost predicate Gets(t: Text, from: iset<Store>, exits: bool, n: Store) {
    exists m, out :: m in from && Ends(out, exits) && Leads(t, m, out, n)
  }

  /** The stores reached from `from`. */
  ghost function Post(t: Text, from: iset<Store>, exits: bool): iset<Store> {
    iset n: Store | Gets(t, from, exits, n)
  }

  /** Whatever `a` can do, `b` can do. */
  ghost predicate Serves(a: Text, b: Text) { forall cs, m :: Yields(b, m, RunText(a, cs, m)) }

  lemma ServesPost(a: Text, b: Text, from: iset<Store>, exits: bool)
    requires Serves(a, b)
    ensures Post(a, from, exits) <= Post(b, from, exits)
  {
    hide RunText;
    forall n | n in Post(a, from, exits) ensures Gets(b, from, exits, n) {
      var m, out :| m in from && Ends(out, exits) && Leads(a, m, out, n);
      ServesLeads(a, b, m, out, n);
    }
  }

  lemma ServesLeads(a: Text, b: Text, m: Store, out: Outcome, n: Store)
    requires Serves(a, b) && Leads(a, m, out, n)
    ensures Leads(b, m, out, n)
  {
    hide RunText;
    forall rest: seq<Choice> ensures Yields(b, m, Run(out, rest, n)) {
      assert Yields(a, m, Run(out, rest, n));
      var cs :| RunText(a, cs, m) == Run(out, rest, n);
      assert Yields(b, m, RunText(a, cs, m));
    }
  }

  // ---- One statement and the rest of its block ----

  lemma ThenRuns(s: Stmt, tail: Stmts, ids: set<Id>, cs: seq<Choice>, m: Store)
    ensures var q := RunStmt(s, cs, m);
            RunText(Rest(Then(s, tail), ids), cs, m) ==
            if q.outcome == Normal then RunText(Rest(tail, ids), q.rest, q.store) else LeaveUnlessCut(ids, q)
  {
    hide RunStmt;
  }

  lemma ThenPost(s: Stmt, tail: Stmts, ids: set<Id>, from: iset<Store>, exits: bool)
    ensures Post(Rest(tail, ids), Post(One(s), from, false), exits) <= Post(Rest(Then(s, tail), ids), from, exits)
  {
    hide RunText;
    var t := Rest(Then(s, tail), ids);
    forall n | n in Post(Rest(tail, ids), Post(One(s), from, false), exits) ensures Gets(t, from, exits, n) {
      var m1, out :| m1 in Post(One(s), from, false) && Ends(out, exits) && Leads(Rest(tail, ids), m1, out, n);
      var m, o :| m in from && Ends(o, false) && Leads(One(s), m, o, m1);
      ThenLeads(s, tail, ids, m, m1, out, n);
    }
  }

  lemma ThenLeads(s: Stmt, tail: Stmts, ids: set<Id>, m: Store, m1: Store, out: Outcome, n: Store)
    requires Leads(One(s), m, Normal, m1) && Leads(Rest(tail, ids), m1, out, n)
    ensures Leads(Rest(Then(s, tail), ids), m, out, n)
  {
    hide RunStmt, RunAll, LeaveUnlessCut;
    forall rest: seq<Choice> ensures Yields(Rest(Then(s, tail), ids), m, Run(out, rest, n)) {
      assert Yields(Rest(tail, ids), m1, Run(out, rest, n));
      var cs1 :| RunText(Rest(tail, ids), cs1, m1) == Run(out, rest, n);
      assert Yields(One(s), m, Run(Normal, cs1, m1));
      var cs :| RunText(One(s), cs, m) == Run(Normal, cs1, m1);
      ThenRuns(s, tail, ids, cs, m);
    }
  }

  lemma ThenExits(s: Stmt, tail: Stmts, ids: set<Id>, from: iset<Store>, n: Store)
    requires n in Post(One(s), from, true)
    ensures Leave(ids, n) in Post(Rest(Then(s, tail), ids), from, true)
  {
    hide RunText, Leave;
    var m, out :| m in from && Ends(out, true) && Leads(One(s), m, out, n);
    forall rest: seq<Choice> ensures Yields(Rest(Then(s, tail), ids), m, Run(out, rest, Leave(ids, n))) {
      assert Yields(One(s), m, Run(out, rest, n));
      var cs :| RunText(One(s), cs, m) == Run(out, rest, n);
      assert RunStmt(s, cs, m) == Run(out, rest, n) by { OneRuns(s, cs, m); }
      ThenRuns(s, tail, ids, cs, m);
    }
    assert Gets(Rest(Then(s, tail), ids), from, true, Leave(ids, n));
  }

  lemma OneRuns(s: Stmt, cs: seq<Choice>, m: Store)
    ensures RunText(One(s), cs, m) == RunStmt(s, cs, m)
  {
  }

  lemma EndPost(ids: set<Id>, from: iset<Store>, m: Store)
    requires m in from
    ensures Leave(ids, m) in Post(Rest(End, ids), from, false)
  {
    hide Leave;
    forall rest: seq<Choice> ensures Yields(Rest(End, ids), m, Run(Normal, rest, Leave(ids, m))) {
      assert RunText(Rest(End, ids), rest, m) == Run(Normal, rest, Leave(ids, m));
    }
    assert Leads(Rest(End, ids), m, Normal, Leave(ids, m));
  }

  // ---- Harm ----

  /** The run did this harm to `x`; or, when the harm is to drop it, it leaves its scope while
      it owes something: by return or throw, or, when it is declared inside the loop around, by
      break or continue. */
  ghost predicate Hurt(q: Run, x: Id, fault: FaultKind, k: Status, near: bool) {
    || Fault(fault, x) in q.store.faults
    || (fault == Dropped && Holds(q.store, x) && k.Inside? &&
        (q.outcome in {Returned, Threw} || (near && q.outcome in {Broke, Continued})))
  }

  ghost predicate Harms(t: Text, from: iset<Store>, x: Id, fault: FaultKind, k: Status, near: bool) {
    exists m, cs :: m in from && Hurt(RunText(t, cs, m), x, fault, k, near)
  }

  lemma ServesHarm(a: Text, b: Text, from: iset<Store>, x: Id, fault: FaultKind, k: Status, near: bool)
    requires Serves(a, b) && Harms(a, from, x, fault, k, near)
    ensures Harms(b, from, x, fault, k, near)
  {
    hide RunText, Hurt;
    var m, cs :| m in from && Hurt(RunText(a, cs, m), x, fault, k, near);
    assert Yields(b, m, RunText(a, cs, m));
    var cs' :| RunText(b, cs', m) == RunText(a, cs, m);
  }

  lemma HurtLater(q: Run, r: Run, x: Id, fault: FaultKind, k: Status, near: bool)
    requires q.outcome == Normal && Hurt(q, x, fault, k, near) && q.store.faults <= r.store.faults
    ensures Hurt(r, x, fault, k, near)
  {
  }

  /** Leaving the block of `x` turns what it owes into a fault. */
  lemma HurtLeft(ids: set<Id>, q: Run, x: Id, fault: FaultKind, k: Status, near: bool)
    requires Hurt(q, x, fault, k, near)
    ensures Hurt(LeaveUnlessCut(ids, q), x, fault, k, near)
  {
    var r := LeaveUnlessCut(ids, q);
    if Fault(fault, x) in q.store.faults {
      assert Fault(fault, x) in r.store.faults;
    } else if x in ids {
      assert Fault(Dropped, x) in r.store.faults;
    }
  }

  lemma ThenHarm(s: Stmt, tail: Stmts, ids: set<Id>, from: iset<Store>, x: Id, fault: FaultKind, k: Status, near: bool)
    requires Harms(One(s), from, x, fault, k, near)
    ensures Harms(Rest(Then(s, tail), ids), from, x, fault, k, near)
  {
    hide RunText, Hurt, Leave, Follows;
    var m, cs :| m in from && Hurt(RunText(One(s), cs, m), x, fault, k, near);
    var q, t := RunStmt(s, cs, m), Rest(Then(s, tail), ids);
    OneRuns(s, cs, m);
    ThenRuns(s, tail, ids, cs, m);
    if q.outcome == Normal {
      RestFollows(tail, ids, q.rest, q.store);
      HurtLater(q, RunText(t, cs, m), x, fault, k, near);
    } else {
      HurtLeft(ids, q, x, fault, k, near);
    }
  }

  lemma RestFollows(ss: Stmts, ids: set<Id>, cs: seq<Choice>, m: Store)
    ensures m.faults <= RunText(Rest(ss, ids), cs, m).store.faults
  {
    hide RunAll, Accounted;
    LedgerAll(ss, cs, m);
  }

  /** Harm done by the rest; a local declared just before is left with the block. */
  lemma TailHarm(s: Stmt, tail: Stmts, ids: set<Id>, from: iset<Store>, x: Id, fault: FaultKind, k: Status, near: bool,
                 k1: Status, near1: bool)
    requires Harms(Rest(tail, ids), Post(One(s), from, false), x, fault, k1, near1)
    requires (k1, near1) == (k, near) || x in ids
    ensures Harms(Rest(Then(s, tail), ids), from, x, fault, k, near)
  {
    hide RunText, Leave;
    var m1, cs1 :| m1 in Post(One(s), from, false) && Hurt(RunText(Rest(tail, ids), cs1, m1), x, fault, k1, near1);
    var m, o :| m in from && Ends(o, false) && Leads(One(s), m, o, m1);
    assert Yields(One(s), m, Run(Normal, cs1, m1));
    var cs :| RunText(One(s), cs, m) == Run(Normal, cs1, m1);
    OneRuns(s, cs, m);
    ThenRuns(s, tail, ids, cs, m);
    LeftOwesNothing(tail, ids, cs1, m1, x);
  }

  lemma LeftOwesNothing(ss: Stmts, ids: set<Id>, cs: seq<Choice>, m: Store, x: Id)
    ensures var q := RunText(Rest(ss, ids), cs, m);
            x in ids && q.outcome != Cut ==> !Holds(q.store, x)
  {
    hide RunAll;
  }

  // ---- Where a local stands ----

  /** Not in scope; owing a delete, an await or a first assignment; or owing nothing. */
  datatype Standing = Away | Owing | Done

  predicate Owes(kind: Kind, m: Store, x: Id)
    requires x in m.env
  {
    if kind == Plain then m.env[x] == Local(false) else Holds(m, x)
  }

  predicate Cast(kind: Kind, c: Cell) {
    match kind
    case RawOwner => c.Ptr?
    case Task => c.Handle?
    case Plain => c.Local?
    case Exception => false
  }

  ghost predicate Stands(w: Standing, m: Store, x: Id, k: Status) {
    Distinct(m) &&
    match w
    case Away => k == Outside && x !in m.env
    case Owing => k.Inside? && x in m.env && Cast(k.kind, m.env[x]) && Owes(k.kind, m, x)
    case Done => k.Inside? && x in m.env && Cast(k.kind, m.env[x]) && !Owes(k.kind, m, x)
  }

  ghost predicate Reached(N: iset<Store>, w: Standing, x: Id, k: Status) {
    exists n :: n in N && Stands(w, n, x, k)
  }

  function Moved(w: Standing, x: Id, ids: set<Id>): Standing { if x in ids then Away else w }

  function Kept(k: Status, x: Id, ids: set<Id>): Status { if x in ids then Outside else k }

  lemma LeaveStands(ids: set<Id>, m: Store, w: Standing, x: Id, k: Status)
    requires Stands(w, m, x, k)
    ensures Stands(Moved(w, x, ids), Leave(ids, m), x, Kept(k, x, ids))
  {
  }

  /** Every standing reached in `from` is reached in `to`, up to leaving `ids`. */
  ghost predicate Wider(from: iset<Store>, to: iset<Store>, x: Id, k: Status, ids: set<Id>) {
    forall w :: Reached(from, w, x, k) ==> Reached(to, Moved(w, x, ids), x, Kept(k, x, ids))
  }

  lemma SubsetWider(from: iset<Store>, to: iset<Store>, x: Id, k: Status)
    requires from <= to
    ensures Wider(from, to, x, k, {})
  {
  }

  lemma LeaveWider(from: iset<Store>, to: iset<Store>, x: Id, k: Status, ids: set<Id>)
    requires forall m | m in from :: Leave(ids, m) in to
    ensures Wider(from, to, x, k, ids)
  {
    hide Stands, Leave;
    forall w | Reached(from, w, x, k) ensures Reached(to, Moved(w, x, ids), x, Kept(k, x, ids)) {
      var n :| n in from && Stands(w, n, x, k);
      LeaveStands(ids, n, w, x, k);
      assert Leave(ids, n) in to;
    }
  }

  // ---- One operation ----

  /** Where an operation on it leaves `x`. */
  function OpMoves(op: Op, w: Standing): Standing {
    match op
    case Delete | Await | Assign => Done
    case NewRaw | Spawn | Declare | Renew => Owing
    case _ => w
  }

  lemma OpStands(op: Op, x: Id, m: Store, w: Standing, k: Status)
    requires Stands(w, m, x, k) && op != SetNull
    requires k == if Declares(op) then Outside else Inside(KindOf(op))
    ensures Stands(OpMoves(op, w), Exec(op, x, m), x, Inside(KindOf(op)))
  {
    ExecDistinct(op, x, m);
  }

  lemma OtherStands(op: Op, y: Id, m: Store, w: Standing, x: Id, k: Status)
    requires Stands(w, m, x, k) && x != y
    ensures Stands(w, Exec(op, y, m), x, k)
  {
    ExecDistinct(op, y, m);
    ExecOther(op, y, m, x);
  }

  /** The operations that do harm. */
  predicate Bites(op: Op, w: Standing) {
    (w == Done && op in {Delete, Deref, Await}) || (w == Owing && op in {Renew, Read})
  }

  /** And the harm they do. */
  function OpFault(op: Op): FaultKind {
    match op
    case Delete => DoubleFree
    case Deref => FreedDereferenced
    case Await => DoubleAwaited
    case Renew => Overwritten
    case _ => UnwrittenRead
  }

  lemma OpBites(op: Op, x: Id, m: Store, w: Standing)
    requires Stands(w, m, x, Inside(KindOf(op))) && Bites(op, w)
    ensures Fault(OpFault(op), x) in Exec(op, x, m).faults
  {
  }

  lemma OpPost(op: Op, y: Id, from: iset<Store>, m: Store)
    requires m in from
    ensures Exec(op, y, m) in Post(One(Do(op, y)), from, false)
  {
    hide Exec;
    forall rest: seq<Choice> ensures Yields(One(Do(op, y)), m, Run(Normal, rest, Exec(op, y, m))) {
      assert RunText(One(Do(op, y)), rest, m) == Run(Normal, rest, Exec(op, y, m));
    }
    assert Leads(One(Do(op, y)), m, Normal, Exec(op, y, m));
  }
}
