/** What a function body does when it runs, independent of the checker: a store with a
    heap, and every branch, loop test, thrown call and caught exception decided by an
    oracle.  A run whose oracle gives out (or answers the wrong question) is cut there, so
    quantifying over oracles covers every prefix of every run, for any number of
    iterations. */
module Runs {
  import opened FlowSyntax

  datatype Cell =
    | Local(written: bool)
    | Nil
    | Ptr(addr: nat)       // the pointer a raw owner holds; dangling once addr leaves the heap
    | Handle(task: nat)

  datatype FaultKind =
    | DoubleFree | NullDereferenced | FreedDereferenced | Overwritten
    | DoubleAwaited | UnwrittenRead
    | Dropped              // a scope is left while the local still holds an allocation or a pending task

  datatype Fault = Fault(kind: FaultKind, x: Id)

  datatype Store = Store(
    env: map<Id, Cell>,
    heap: set<nat>,        // allocations not freed yet
    tasks: set<nat>,       // tasks not awaited yet
    next: nat,             // the next unused address or task handle
    faults: set<Fault>)

  datatype Choice = Pick(n: nat) | Value(v: Label)

  datatype Outcome = Normal | Broke | Continued | Returned | Threw | Cut

  datatype Run = Run(outcome: Outcome, rest: seq<Choice>, store: Store)

  predicate Holds(m: Store, x: Id) {
    x in m.env &&
    match m.env[x]
    case Ptr(a) => a in m.heap
    case Handle(h) => h in m.tasks
    case _ => false
  }

  function Blame(condition: bool, kind: FaultKind, x: Id, m: Store): Store {
    if condition then m.(faults := m.faults + {Fault(kind, x)}) else m
  }

  function Allocate(x: Id, m: Store): Store {
    m.(env := m.env[x := Ptr(m.next)], heap := m.heap + {m.next}, next := m.next + 1)
  }

  function Declared(op: Op, x: Id, m: Store): Store {
    match op
    case NewRaw => Allocate(x, m)
    case Spawn => m.(env := m.env[x := Handle(m.next)], tasks := m.tasks + {m.next}, next := m.next + 1)
    case _ => m.(env := m.env[x := Local(false)])
  }

  function Exec(op: Op, x: Id, m: Store): Store {
    if Declares(op) then Declared(op, x, Blame(Holds(m, x), Overwritten, x, m))
    else if x !in m.env then m
    else
      match (op, m.env[x])
      case (Delete, Ptr(a)) => Blame(a !in m.heap, DoubleFree, x, m).(heap := m.heap - {a})
      case (Renew, _) => Allocate(x, Blame(Holds(m, x), Overwritten, x, m))
      case (SetNull, _) => Blame(Holds(m, x), Overwritten, x, m).(env := m.env[x := Nil])
      case (Deref, Nil) => Blame(true, NullDereferenced, x, m)
      case (Deref, Ptr(a)) => Blame(a !in m.heap, FreedDereferenced, x, m)
      case (Await, Handle(h)) => Blame(h !in m.tasks, DoubleAwaited, x, m).(tasks := m.tasks - {h})
      case (Assign, Local(_)) => m.(env := m.env[x := Local(true)])
      case (Read, Local(written)) => Blame(!written, UnwrittenRead, x, m)
      case _ => m
  }

  /** The locals of a block go out of scope. */
  function Leave(ids: set<Id>, m: Store): Store {
    m.(env := m.env - ids,
       faults := m.faults + set x | x in ids && Holds(m, x) :: Fault(Dropped, x))
  }

  function LeaveUnlessCut(ids: set<Id>, r: Run): Run {
    if r.outcome == Cut then r else r.(store := Leave(ids, r.store))
  }

  /** A catch clause brings its parameter into scope around its body. */
  function Bind(catches: bool, tag: Label, m: Store): Store {
    if catches && tag.Caught? then Blame(Holds(m, tag.x), Overwritten, tag.x, m).(env := m.env[tag.x := Local(true)])
    else m
  }

  function Bound(catches: bool, tag: Label): set<Id> {
    if catches && tag.Caught? then {tag.x} else {}
  }

  function RunStmt(s: Stmt, cs: seq<Choice>, m: Store): (r: Run)
    ensures |r.rest| <= |cs|
    decreases |cs|, s, 2
  {
    match s
    case Do(op, x) => Run(Normal, cs, Exec(op, x, m))
    case Call(nothrow) =>
      if nothrow then Run(Normal, cs, m)
      else if |cs| == 0 || !cs[0].Pick? then Run(Cut, cs, m)
      else Run(if cs[0].n == 0 then Normal else Threw, cs[1..], m)
    case Block(body) => RunBlock(body, cs, m)
    case If(arms, els) =>
      if |cs| == 0 || !cs[0].Pick? then Run(Cut, cs, m)
      else if cs[0].n < Count(arms) then RunArm(arms, cs[0].n, false, cs[1..], m) else RunElse(els, cs[1..], m)
    case Switch(on, _, arms, els) =>
      if |cs| == 0 || !cs[0].Value? || !LabelFits(on, cs[0].v) then Run(Cut, cs, m)
      else if cs[0].v in Labels(arms) then RunCase(arms, cs[0].v, cs[1..], m) else RunElse(els, cs[1..], m)
    case While(body) => RunLoop(body, cs, m)
    case DoWhile(body) => RunAgain(body, RunBlock(body, cs, m), cs)
    case Try(_, _, _) => RunTry(s, cs, m)
    case Throw => Run(Threw, cs, m)
    case Break => Run(Broke, cs, m)
    case Continue => Run(Continued, cs, m)
    case Return => Run(Returned, cs, m)
  }

  function RunAll(ss: Stmts, cs: seq<Choice>, m: Store): (r: Run)
    ensures |r.rest| <= |cs|
    decreases |cs|, ss, 0
  {
    match ss
    case End => Run(Normal, cs, m)
    case Then(s, tail) =>
      var r := RunStmt(s, cs, m);
      if r.outcome == Normal then RunAll(tail, r.rest, r.store) else r
  }

  function RunBlock(body: Stmts, cs: seq<Choice>, m: Store): (r: Run)
    ensures |r.rest| <= |cs|
    decreases |cs|, body, 1
  {
    LeaveUnlessCut(Decls(body), RunAll(body, cs, m))
  }

  function RunElse(els: Else, cs: seq<Choice>, m: Store): (r: Run)
    ensures |r.rest| <= |cs|
    decreases |cs|, els, 0
  {
    match els
    case NoElse => Run(Normal, cs, m)
    case ElseBody(body) => RunBlock(body, cs, m)
  }

  /** The branch of an if chain, or the catch clause, the oracle picked. */
  function RunArm(arms: Arms, n: nat, catches: bool, cs: seq<Choice>, m: Store): (r: Run)
    requires n < Count(arms)
    ensures |r.rest| <= |cs|
    decreases |cs|, arms, 0
  {
    if n > 0 then RunArm(arms.rest, n - 1, catches, cs, m)
    else LeaveUnlessCut(Bound(catches, arms.tag), RunBlock(arms.body, cs, Bind(catches, arms.tag, m)))
  }

  /** The first case whose label is the selected value. */
  function RunCase(arms: Arms, v: Label, cs: seq<Choice>, m: Store): (r: Run)
    requires v in Labels(arms)
    ensures |r.rest| <= |cs|
    decreases |cs|, arms, 0
  {
    if arms.tag == v then RunBlock(arms.body, cs, m) else RunCase(arms.rest, v, cs, m)
  }

  /** A loop from its test on. */
  function RunLoop(body: Stmts, cs: seq<Choice>, m: Store): (r: Run)
    ensures |r.rest| <= |cs|
    decreases |cs|, body, 2
  {
    if |cs| == 0 || !cs[0].Pick? then Run(Cut, cs, m)
    else if cs[0].n == 0 then Run(Normal, cs[1..], m)
    else
      var r := RunBlock(body, cs[1..], m);
      match r.outcome
      case Normal | Continued => RunLoop(body, r.rest, r.store)
      case Broke => Run(Normal, r.rest, r.store)
      case _ => r
  }

  /** A do-while after its body ran once. */
  function RunAgain(body: Stmts, r: Run, ghost cs: seq<Choice>): (q: Run)
    requires |r.rest| <= |cs|
    ensures |q.rest| <= |cs|
    decreases |cs|, body, 3
  {
    match r.outcome
    case Normal | Continued => RunLoop(body, r.rest, r.store)
    case Broke => Run(Normal, r.rest, r.store)
    case _ => r
  }

  /** The body of a try and the catch clause an exception picks, if any. */
  function RunGuarded(s: Stmt, cs: seq<Choice>, m: Store): (r: Run)
    requires s.Try?
    ensures |r.rest| <= |cs|
    decreases |cs|, s, 0
  {
    var r := RunBlock(s.body, cs, m);
    if r.outcome != Threw then r
    else if |r.rest| == 0 || !r.rest[0].Pick? then r.(outcome := Cut)
    else if r.rest[0].n < Count(s.handlers) then RunArm(s.handlers, r.rest[0].n, true, r.rest[1..], r.store)
    else r.(rest := r.rest[1..])
  }

  /** A finally block that ends normally passes the earlier outcome on. */
  function RunTry(s: Stmt, cs: seq<Choice>, m: Store): (r: Run)
    requires s.Try?
    ensures |r.rest| <= |cs|
    decreases |cs|, s, 1
  {
    var q := RunGuarded(s, cs, m);
    if q.outcome == Cut then q
    else
      var f := RunElse(s.fin, q.rest, q.store);
      if f.outcome == Normal then f.(outcome := q.outcome) else f
  }

  const EMPTY := Store(map[], {}, {}, 0, {})

  function RunFunction(body: Stmts, cs: seq<Choice>): Run { RunBlock(body, cs, EMPTY) }
}
