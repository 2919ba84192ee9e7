/** What the runs themselves guarantee, whatever the program: as long as no fault happened,
    every allocation not freed and every task not awaited is held by some local. */
module RunLedger {
  import opened FlowSyntax
  import opened Runs

  ghost predicate Held(m: Store) {
    && (forall a | a in m.heap :: exists x :: x in m.env && m.env[x] == Ptr(a))
    && (forall t | t in m.tasks :: exists x :: x in m.env && m.env[x] == Handle(t))
  }

  ghost predicate Accounted(m: Store) { m.faults == {} ==> Held(m) }

  /** No fault is forgotten, and what was accounted for still is. */
  ghost predicate Follows(m: Store, n: Store) { m.faults <= n.faults && (Accounted(m) ==> Accounted(n)) }

  /** Nothing gets lost unnoticed: an allocation or a task that no local holds any more
      has left a fault behind, and faults stay. */
  lemma {:induction false} LedgerStmt(s: Stmt, cs: seq<Choice>, m: Store)
    ensures Follows(m, RunStmt(s, cs, m).store)
    decreases |cs|, s, 2
  {
    hide Accounted, RunBlock, RunLoop, RunArm, RunElse, RunCase, RunTry, RunAgain, Exec;
    match s
    case Do(op, x) => LedgerOp(op, x, m);
    case Block(body) => LedgerBlock(body, cs, m);
    case If(arms, els) =>
      if |cs| > 0 && cs[0].Pick? {
        if cs[0].n < Count(arms) { LedgerArm(arms, cs[0].n, false, cs[1..], m); } else { LedgerElse(els, cs[1..], m); }
      }
    case Switch(on, _, arms, els) =>
      if |cs| > 0 && cs[0].Value? && LabelFits(on, cs[0].v) {
        if cs[0].v in Labels(arms) { LedgerCase(arms, cs[0].v, cs[1..], m); } else { LedgerElse(els, cs[1..], m); }
      }
    case While(body) => LedgerLoop(body, cs, m);
    case DoWhile(body) => LedgerBlock(body, cs, m); LedgerAgain(body, RunBlock(body, cs, m), cs);
    case Try(_, _, _) => LedgerTry(s, cs, m);
    case _ =>
  }

  lemma LedgerOp(op: Op, x: Id, m: Store)
    ensures Follows(m, Exec(op, x, m))
  {
    var r := Exec(op, x, m);
    if r.faults == {} && Accounted(m) {
      forall a | a in r.heap ensures exists y :: y in r.env && r.env[y] == Ptr(a) {
        if a in m.heap {
          var y :| y in m.env && m.env[y] == Ptr(a);
          assert y in r.env && r.env[y] == Ptr(a);
        } else {
          assert x in r.env && r.env[x] == Ptr(a);
        }
      }
      forall t | t in r.tasks ensures exists y :: y in r.env && r.env[y] == Handle(t) {
        if t in m.tasks {
          var y :| y in m.env && m.env[y] == Handle(t);
          assert y in r.env && r.env[y] == Handle(t);
        } else {
          assert x in r.env && r.env[x] == Handle(t);
        }
      }
    }
  }

  lemma LedgerLeave(ids: set<Id>, m: Store)
    ensures Follows(m, Leave(ids, m))
  {
    var r := Leave(ids, m);
    assert forall x | x in ids && Holds(m, x) :: Fault(Dropped, x) in r.faults;
    if r.faults == {} && Accounted(m) {
      forall a | a in r.heap ensures exists y :: y in r.env && r.env[y] == Ptr(a) {
        var y :| y in m.env && m.env[y] == Ptr(a);
        assert y in r.env && r.env[y] == Ptr(a);
      }
      forall t | t in r.tasks ensures exists y :: y in r.env && r.env[y] == Handle(t) {
        var y :| y in m.env && m.env[y] == Handle(t);
        assert y in r.env && r.env[y] == Handle(t);
      }
    }
  }

  lemma LedgerBind(catches: bool, tag: Label, m: Store)
    ensures Follows(m, Bind(catches, tag, m))
  {
    var r := Bind(catches, tag, m);
    if r.faults == {} && Accounted(m) && catches && tag.Caught? {
      forall a | a in r.heap ensures exists y :: y in r.env && r.env[y] == Ptr(a) {
        var y :| y in m.env && m.env[y] == Ptr(a);
        assert y in r.env && r.env[y] == Ptr(a);
      }
      forall t | t in r.tasks ensures exists y :: y in r.env && r.env[y] == Handle(t) {
        var y :| y in m.env && m.env[y] == Handle(t);
        assert y in r.env && r.env[y] == Handle(t);
      }
    }
  }

  lemma {:induction false} LedgerAll(ss: Stmts, cs: seq<Choice>, m: Store)
    ensures Follows(m, RunAll(ss, cs, m).store)
    decreases |cs|, ss, 1
  {
    hide Accounted, RunStmt;
    if ss.Then? {
      LedgerStmt(ss.head, cs, m);
      var r := RunStmt(ss.head, cs, m);
      if r.outcome == Normal { LedgerAll(ss.tail, r.rest, r.store); }
    }
  }

  lemma {:induction false} LedgerBlock(body: Stmts, cs: seq<Choice>, m: Store)
    ensures Follows(m, RunBlock(body, cs, m).store)
    decreases |cs|, body, 2
  {
    hide Accounted, RunAll, Leave;
    LedgerAll(body, cs, m);
    LedgerLeave(Decls(body), RunAll(body, cs, m).store);
  }

  lemma {:induction false} LedgerElse(els: Else, cs: seq<Choice>, m: Store)
    ensures Follows(m, RunElse(els, cs, m).store)
    decreases |cs|, els, 0
  {
    hide Accounted, RunBlock;
    if els.ElseBody? { LedgerBlock(els.body, cs, m); }
  }

  lemma {:induction false} LedgerArm(arms: Arms, n: nat, catches: bool, cs: seq<Choice>, m: Store)
    requires n < Count(arms)
    ensures Follows(m, RunArm(arms, n, catches, cs, m).store)
    decreases |cs|, arms, 0
  {
    hide Accounted, RunBlock, Leave, Bind;
    if n > 0 {
      LedgerArm(arms.rest, n - 1, catches, cs, m);
    } else {
      LedgerBind(catches, arms.tag, m);
      LedgerBlock(arms.body, cs, Bind(catches, arms.tag, m));
      LedgerLeave(Bound(catches, arms.tag), RunBlock(arms.body, cs, Bind(catches, arms.tag, m)).store);
    }
  }

  lemma {:induction false} LedgerCase(arms: Arms, v: Label, cs: seq<Choice>, m: Store)
    requires v in Labels(arms)
    ensures Follows(m, RunCase(arms, v, cs, m).store)
    decreases |cs|, arms, 0
  {
    hide Accounted, RunBlock;
    if arms.tag == v { LedgerBlock(arms.body, cs, m); } else { LedgerCase(arms.rest, v, cs, m); }
  }

  lemma {:induction false} LedgerLoop(body: Stmts, cs: seq<Choice>, m: Store)
    ensures Follows(m, RunLoop(body, cs, m).store)
    decreases |cs|, body, 3
  {
    hide Accounted, RunBlock;
    if |cs| > 0 && cs[0].Pick? && cs[0].n != 0 {
      var r := RunBlock(body, cs[1..], m);
      LedgerBlock(body, cs[1..], m);
      LedgerAgain(body, r, cs[1..]);
    }
  }

  lemma {:induction false} LedgerAgain(body: Stmts, r: Run, cs: seq<Choice>)
    requires |r.rest| <= |cs|
    ensures Follows(r.store, RunAgain(body, r, cs).store)
    decreases |cs|, body, 4
  {
    hide Accounted, RunLoop;
    if r.outcome == Normal || r.outcome == Continued { LedgerLoop(body, r.rest, r.store); }
  }

  lemma {:induction false} LedgerGuarded(s: Stmt, cs: seq<Choice>, m: Store)
    requires s.Try?
    ensures Follows(m, RunGuarded(s, cs, m).store)
    decreases |cs|, s, 0
  {
    hide Accounted, RunBlock, RunArm;
    var r := RunBlock(s.body, cs, m);
    LedgerBlock(s.body, cs, m);
    if r.outcome == Threw && |r.rest| > 0 && r.rest[0].Pick? && r.rest[0].n < Count(s.handlers) {
      LedgerArm(s.handlers, r.rest[0].n, true, r.rest[1..], r.store);
    }
  }

  lemma {:induction false} LedgerTry(s: Stmt, cs: seq<Choice>, m: Store)
    requires s.Try?
    ensures Follows(m, RunTry(s, cs, m).store)
    decreases |cs|, s, 1
  {
    hide Accounted, RunGuarded, RunElse;
    LedgerGuarded(s, cs, m);
    var q := RunGuarded(s, cs, m);
    LedgerElse(s.fin, q.rest, q.store);
  }
}
