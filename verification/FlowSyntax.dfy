/** Function bodies as the ownership checker sees them: names are resolved to the
    symbol ids the symbol table gave them, conditions and other expressions without
    an effect on either flow table are dropped, and every nested body is the list of
    statements between its braces. */
module FlowSyntax {
  type Id = nat

  /** One effect on one local.  The first five act on a raw owner declared with
      `raw T* x = new raw T()`, the next two on a task, the last three on a plain local. */
  datatype Op =
    | NewRaw | Delete | Renew | SetNull | Deref
    | Spawn | Await
    | Declare | Assign | Read

  datatype Stmt =
    | Do(op: Op, x: Id)
    | Call(nothrow: bool)                     // a call: no effect on the flow tables
    | Block(body: Stmts)
    | If(arms: Arms, els: Else)               // if / else-if chain
    | Switch(on: Selector, exhaustive: bool, arms: Arms, els: Else)
    | While(body: Stmts)
    | DoWhile(body: Stmts)
    | Try(body: Stmts, handlers: Arms, fin: Else)
    | Throw
    | Break
    | Continue
    | Return

  datatype Stmts = End | Then(head: Stmt, tail: Stmts)

  /** Branches of an if chain, cases of a switch, or catch clauses of a try. */
  datatype Arms = NoArms | Arm(tag: Label, body: Stmts, rest: Arms)

  datatype Else = NoElse | ElseBody(body: Stmts)

  datatype Label =
    | Unlabeled                // a branch of an if chain
    | BoolCase(b: bool)
    | IntCase(n: int)
    | MemberCase(member: nat)  // an enum member
    | Caught(x: Id)            // a catch parameter

  datatype Selector = OnInt | OnBool | OnEnum(members: set<nat>)

  /** The values a selector can have, written as case labels. */
  predicate LabelFits(on: Selector, tag: Label) {
    match (on, tag)
    case (OnInt, IntCase(_)) => true
    case (OnBool, BoolCase(_)) => true
    case (OnEnum(members), MemberCase(m)) => m in members
    case _ => false
  }

  function Labels(arms: Arms): set<Label> {
    match arms
    case NoArms => {}
    case Arm(tag, _, rest) => {tag} + Labels(rest)
  }

  predicate NoneCaught(arms: Arms) { arms.Arm? ==> !arms.tag.Caught? && NoneCaught(arms.rest) }

  function Count(arms: Arms): nat {
    match arms
    case NoArms => 0
    case Arm(_, _, rest) => 1 + Count(rest)
  }

  /** What a local is.  No operation applies to a caught exception. */
  datatype Kind = RawOwner | Task | Plain | Exception

  function KindOf(op: Op): Kind {
    match op
    case NewRaw | Delete | Renew | SetNull | Deref => RawOwner
    case Spawn | Await => Task
    case Declare | Assign | Read => Plain
  }

  predicate Declares(op: Op) { op in {NewRaw, Spawn, Declare} }

  /** `foreach (x in source) body`: the loop variable lives in a scope around the
      loop and is initialized before the body is analyzed. */
  function ForEach(x: Id, body: Stmts): Stmt {
    Block(Then(Do(Declare, x), Then(Do(Assign, x), Then(While(body), End))))
  }

  /** The locals declared directly in a list of statements. */
  function Decls(ss: Stmts): set<Id> {
    match ss
    case End => {}
    case Then(Do(op, x), tail) => (if Declares(op) then {x} else {}) + Decls(tail)
    case Then(_, tail) => Decls(tail)
  }

  // ---- What name resolution guarantees, one local at a time ----

  datatype Status = Outside | Inside(kind: Kind)

  /** Whether `x` is in scope after a statement, given whether it was before. */
  function After(s: Stmt, x: Id, k: Status): Status {
    if s.Do? && Declares(s.op) && s.x == x then Inside(KindOf(s.op)) else k
  }

  /** `x` is used only where it is in scope and only as what it was declared to be, and
      it is not declared again while it is in scope. */
  predicate Resolved(s: Stmt, x: Id, k: Status) {
    match s
    case Do(op, y) => y == x ==> k == if Declares(op) then Outside else Inside(KindOf(op))
    case Block(body) => ResolvedAll(body, x, k)
    case If(arms, els) => NoneCaught(arms) && ResolvedArms(arms, x, k) && ResolvedElse(els, x, k)
    case Switch(_, _, arms, els) => NoneCaught(arms) && ResolvedArms(arms, x, k) && ResolvedElse(els, x, k)
    case While(body) => ResolvedAll(body, x, k)
    case DoWhile(body) => ResolvedAll(body, x, k)
    case Try(body, handlers, fin) =>
      ResolvedAll(body, x, k) && ResolvedArms(handlers, x, k) && ResolvedElse(fin, x, k)
    case _ => true
  }

  predicate ResolvedAll(ss: Stmts, x: Id, k: Status) {
    match ss
    case End => true
    case Then(s, tail) => Resolved(s, x, k) && ResolvedAll(tail, x, After(s, x, k))
  }

  predicate ResolvedArms(arms: Arms, x: Id, k: Status) {
    match arms
    case NoArms => true
    case Arm(Caught(y), body, rest) =>
      (y == x ==> k == Outside) &&
      ResolvedAll(body, x, if y == x then Inside(Exception) else k) && ResolvedArms(rest, x, k)
    case Arm(_, body, rest) => ResolvedAll(body, x, k) && ResolvedArms(rest, x, k)
  }

  predicate ResolvedElse(els: Else, x: Id, k: Status) {
    els.ElseBody? ==> ResolvedAll(els.body, x, k)
  }

  /** A function body all of whose locals are resolved. */
  ghost predicate ResolvedBody(body: Stmts) {
    forall x: Id :: ResolvedAll(body, x, Outside)
  }
}
