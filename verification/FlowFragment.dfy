/** The programs the checker's single pass over a loop body is sound for, one local at a
    time, as a condition on the program text. */
module FlowFragment {
  import opened FlowSyntax

  /** The groups of operations the conditions below speak of. */
  datatype Use = Changing | Assigning | Nulling | Reading

  predicate Does(op: Op, use: Use) {
    match use
    case Changing => op.Delete? || op.Renew? || op.SetNull? || op.Await?
    case Assigning => op.Renew? || op.SetNull?
    case Nulling => op.SetNull?
    case Reading => op.Read?
  }

  /** Whether `x` is used that way anywhere inside. */
  predicate Mentions(s: Stmt, x: Id, use: Use) {
    match s
    case Do(op, y) => y == x && Does(op, use)
    case Block(body) => MentionsAll(body, x, use)
    case If(arms, els) => MentionsArms(arms, x, use) || MentionsElse(els, x, use)
    case Switch(_, _, arms, els) => MentionsArms(arms, x, use) || MentionsElse(els, x, use)
    case While(body) => MentionsAll(body, x, use)
    case DoWhile(body) => MentionsAll(body, x, use)
    case Try(body, handlers, fin) =>
      MentionsAll(body, x, use) || MentionsArms(handlers, x, use) || MentionsElse(fin, x, use)
    case _ => false
  }

  predicate MentionsAll(ss: Stmts, x: Id, use: Use) {
    ss.Then? && (Mentions(ss.head, x, use) || MentionsAll(ss.tail, x, use))
  }

  predicate MentionsArms(arms: Arms, x: Id, use: Use) {
    arms.Arm? && (MentionsAll(arms.body, x, use) || MentionsArms(arms.rest, x, use))
  }

  predicate MentionsElse(els: Else, x: Id, use: Use) {
    els.ElseBody? && MentionsAll(els.body, x, use)
  }

  /** Whether a `continue` inside would continue the loop around `s`. */
  predicate Continues(s: Stmt) {
    match s
    case Continue => true
    case Block(body) => ContinuesAll(body)
    case If(arms, els) => ContinuesArms(arms) || ContinuesElse(els)
    case Switch(_, _, arms, els) => ContinuesArms(arms) || ContinuesElse(els)
    case Try(body, handlers, fin) => ContinuesAll(body) || ContinuesArms(handlers) || ContinuesElse(fin)
    case _ => false
  }

  predicate ContinuesAll(ss: Stmts) { ss.Then? && (Continues(ss.head) || ContinuesAll(ss.tail)) }

  predicate ContinuesArms(arms: Arms) { arms.Arm? && (ContinuesAll(arms.body) || ContinuesArms(arms.rest)) }

  predicate ContinuesElse(els: Else) { els.ElseBody? && ContinuesAll(els.body) }

  /** A switch over an enum without members and without branches is never passed, and the
      walk takes it for the end of all paths. */
  predicate Blind(on: Selector, arms: Arms, els: Else) { on == OnEnum({}) && arms.NoArms? && els.NoElse? }

  /** Where such a switch could end the walk: not inside a loop tested at the top, whose entry
      is a path of its own. */
  predicate Passable(s: Stmt) {
    match s
    case Block(body) => PassableAll(body)
    case If(arms, els) => PassableArms(arms) && PassableElse(els)
    case Switch(on, _, arms, els) => !Blind(on, arms, els) && PassableArms(arms) && PassableElse(els)
    case DoWhile(body) => PassableAll(body)
    case Try(body, handlers, fin) => PassableAll(body) && PassableArms(handlers) && PassableElse(fin)
    case _ => true
  }

  predicate PassableAll(ss: Stmts) { ss.Then? ==> Passable(ss.head) && PassableAll(ss.tail) }

  predicate PassableArms(arms: Arms) { arms.Arm? ==> PassableAll(arms.body) && PassableArms(arms.rest) }

  predicate PassableElse(els: Else) { els.ElseBody? ==> PassableAll(els.body) }

  /** No do-while inside changes `x`. */
  predicate BottomsLook(s: Stmt, x: Id) {
    match s
    case Block(body) => BottomsLookAll(body, x)
    case If(arms, els) => BottomsLookArms(arms, x) && BottomsLookElse(els, x)
    case Switch(_, _, arms, els) => BottomsLookArms(arms, x) && BottomsLookElse(els, x)
    case While(body) => BottomsLookAll(body, x)
    case DoWhile(body) => BottomsLookAll(body, x) && !MentionsAll(body, x, Changing)
    case Try(body, handlers, fin) => BottomsLookAll(body, x) && BottomsLookArms(handlers, x) && BottomsLookElse(fin, x)
    case _ => true
  }

  predicate BottomsLookAll(ss: Stmts, x: Id) {
    ss.Then? ==> BottomsLook(ss.head, x) && BottomsLookAll(ss.tail, x)
  }

  predicate BottomsLookArms(arms: Arms, x: Id) {
    arms.Arm? ==> BottomsLookAll(arms.body, x) && BottomsLookArms(arms.rest, x)
  }

  predicate BottomsLookElse(els: Else, x: Id) { els.ElseBody? ==> BottomsLookAll(els.body, x) }

  /** A raw owner or a task: something that must be released. */
  predicate Owned(k: Status) { k == Inside(RawOwner) || k == Inside(Task) }

  /** How the text continues the loop around it: not at all, only before `x` is given a value
      in the same turn, or perhaps after.  A try gives no value to an owner it is covered for. */
  datatype Resumes = Never | Early | Late

  function Most(a: Resumes, b: Resumes): Resumes {
    if a == Late || b == Late then Late else if a == Early || b == Early then Early else Never
  }

  /** One piece of text and then another. */
  function InTurn(a: Resumes, assigns: bool, b: Resumes): Resumes {
    if assigns && b != Never then Late else Most(a, b)
  }

  function Resume(s: Stmt, x: Id): Resumes {
    match s
    case Continue => Early
    case Block(body) => ResumeAll(body, x)
    case If(arms, els) => Most(ResumeArms(arms, x), ResumeElse(els, x))
    case Switch(_, _, arms, els) => Most(ResumeArms(arms, x), ResumeElse(els, x))
    case Try(body, handlers, fin) => Most(Most(ResumeAll(body, x), ResumeArms(handlers, x)), ResumeElse(fin, x))
    case _ => Never
  }

  function ResumeAll(ss: Stmts, x: Id): Resumes {
    match ss
    case End => Never
    case Then(s, tail) => InTurn(Resume(s, x), Mentions(s, x, Assigning), ResumeAll(tail, x))
  }

  function ResumeArms(arms: Arms, x: Id): Resumes {
    match arms
    case NoArms => Never
    case Arm(_, body, rest) => Most(ResumeAll(body, x), ResumeArms(rest, x))
  }

  function ResumeElse(els: Else, x: Id): Resumes {
    match els
    case NoElse => Never
    case ElseBody(body) => ResumeAll(body, x)
  }

  /** What the text of a function allows: `x` may have been set to null by now, calls may
      throw while it is owned, and there are try statements. */
  datatype Terms = Terms(nulled: bool, throws: bool, tries: bool) {
    /** Whether an exception that dropped the local may have been caught earlier in the run. */
    predicate Earlier() { throws && tries }

    /** After `s`, for a local with status `k` before it. */
    function Past(s: Stmt, x: Id, k: Status): Terms {
      if k.Inside? then this.(nulled := nulled || Mentions(s, x, Nulling)) else this
    }
  }

  /** A loop may change a raw owner declared outside it only if the owner has not been set to
      null before or inside, and no `continue` may come after it was given a new allocation. */
  predicate LoopMayChange(body: Stmts, x: Id, terms: Terms) {
    && (MentionsAll(body, x, Changing) ==> !terms.nulled)
    && ResumeAll(body, x) != Late
  }

  /** Where the checker covers `x`.  An owner or task in scope may only be looked at in a
      do-while or a try, and may not meet a call that throws (unless the terms say so) or a
      switch that is never passed; a plain local may meet them all, but a finally block may
      not read it. */
  predicate Covered(s: Stmt, x: Id, k: Status, terms: Terms) {
    match s
    case Call(nothrow) => nothrow || !Owned(k) || terms.throws
    case Block(body) => CoveredAll(body, x, k, terms)
    case If(arms, els) => CoveredArms(arms, x, k, terms) && CoveredElse(els, x, k, terms)
    case Switch(on, _, arms, els) =>
      && CoveredArms(arms, x, k, terms) && CoveredElse(els, x, k, terms)
      && (Owned(k) ==> !Blind(on, arms, els))
    case While(body) =>
      && CoveredAll(body, x, k, terms.Past(s, x, k))
      && (k == Inside(RawOwner) ==> LoopMayChange(body, x, terms.Past(s, x, k)))
    case DoWhile(body) => CoveredAll(body, x, k, terms.Past(s, x, k)) && (Owned(k) ==> !MentionsAll(body, x, Changing))
    case Try(body, handlers, fin) =>
      && terms.tries && (Owned(k) ==> !Mentions(s, x, Changing))
      && CoveredAll(body, x, k, terms) && CoveredArms(handlers, x, k, terms) && CoveredElse(fin, x, k, terms)
      && (k == Inside(Plain) ==> !MentionsElse(fin, x, Reading))
    case _ => true
  }

  predicate CoveredAll(ss: Stmts, x: Id, k: Status, terms: Terms) {
    ss.Then? ==>
      && Covered(ss.head, x, k, terms)
      && CoveredAll(ss.tail, x, After(ss.head, x, k), terms.Past(ss.head, x, k))
  }

  predicate CoveredArms(arms: Arms, x: Id, k: Status, terms: Terms) {
    arms.Arm? ==>
      CoveredAll(arms.body, x, if arms.tag == Caught(x) then Inside(Exception) else k, terms)
      && CoveredArms(arms.rest, x, k, terms)
  }

  predicate CoveredElse(els: Else, x: Id, k: Status, terms: Terms) {
    els.ElseBody? ==> CoveredAll(els.body, x, k, terms)
  }

  /** The condition for a whole function body: what a caller of the checker can test. */
  predicate CoveredIn(body: Stmts, x: Id) { CoveredAll(body, x, Outside, Terms(false, false, true)) }

  /** The same with throwing calls anywhere, and with or without try statements. */
  predicate CoveredButThrows(body: Stmts, x: Id, tries: bool) {
    CoveredAll(body, x, Outside, Terms(false, true, tries))
  }

  // ---- What the conditions say about each other ----

  lemma {:induction false} ResumeIff(s: Stmt, x: Id)
    ensures Resume(s, x) != Never <==> Continues(s)
    ensures !Mentions(s, x, Assigning) ==> Resume(s, x) != Late
    decreases s, 1
  {
    match s
    case Block(body) => ResumeIffAll(body, x);
    case If(arms, els) => ResumeIffArms(arms, x); ResumeIffElse(els, x);
    case Switch(_, _, arms, els) => ResumeIffArms(arms, x); ResumeIffElse(els, x);
    case Try(body, handlers, fin) => ResumeIffAll(body, x); ResumeIffArms(handlers, x); ResumeIffElse(fin, x);
    case _ =>
  }

  lemma {:induction false} ResumeIffAll(ss: Stmts, x: Id)
    ensures ResumeAll(ss, x) != Never <==> ContinuesAll(ss)
    ensures !MentionsAll(ss, x, Assigning) ==> ResumeAll(ss, x) != Late
    decreases ss, 0
  {
    if ss.Then? { ResumeIff(ss.head, x); ResumeIffAll(ss.tail, x); }
  }

  lemma {:induction false} ResumeIffArms(arms: Arms, x: Id)
    ensures ResumeArms(arms, x) != Never <==> ContinuesArms(arms)
    ensures !MentionsArms(arms, x, Assigning) ==> ResumeArms(arms, x) != Late
    decreases arms, 0
  {
    if arms.Arm? { ResumeIffAll(arms.body, x); ResumeIffArms(arms.rest, x); }
  }

  lemma {:induction false} ResumeIffElse(els: Else, x: Id)
    ensures ResumeElse(els, x) != Never <==> ContinuesElse(els)
    ensures !MentionsElse(els, x, Assigning) ==> ResumeElse(els, x) != Late
    decreases els, 0
  {
    if els.ElseBody? { ResumeIffAll(els.body, x); }
  }

  /** Covered text is passable where it can meet an owner or a task, and its do-whiles look. */
  lemma {:induction false} CoveredPasses(s: Stmt, x: Id, kind: Kind, terms: Terms)
    requires Covered(s, x, Inside(kind), terms) && Resolved(s, x, Inside(kind)) && Owned(Inside(kind))
    ensures Passable(s) && BottomsLook(s, x)
    decreases s, 1
  {
    match s
    case Block(body) => CoveredPassesAll(body, x, kind, terms);
    case If(arms, els) => CoveredPassesArms(arms, x, kind, terms); CoveredPassesElse(els, x, kind, terms);
    case Switch(_, _, arms, els) => CoveredPassesArms(arms, x, kind, terms); CoveredPassesElse(els, x, kind, terms);
    case While(body) => CoveredPassesAll(body, x, kind, terms.Past(s, x, Inside(kind)));
    case DoWhile(body) => CoveredPassesAll(body, x, kind, terms.Past(s, x, Inside(kind)));
    case Try(body, handlers, fin) =>
      CoveredPassesAll(body, x, kind, terms);
      CoveredPassesArms(handlers, x, kind, terms);
      CoveredPassesElse(fin, x, kind, terms);
    case _ =>
  }

  lemma {:induction false} CoveredPassesAll(ss: Stmts, x: Id, kind: Kind, terms: Terms)
    requires CoveredAll(ss, x, Inside(kind), terms) && ResolvedAll(ss, x, Inside(kind)) && Owned(Inside(kind))
    ensures PassableAll(ss) && BottomsLookAll(ss, x)
    decreases ss, 0
  {
    if ss.Then? {
      CoveredPasses(ss.head, x, kind, terms);
      CoveredPassesAll(ss.tail, x, kind, terms.Past(ss.head, x, Inside(kind)));
    }
  }

  lemma {:induction false} CoveredPassesArms(arms: Arms, x: Id, kind: Kind, terms: Terms)
    requires CoveredArms(arms, x, Inside(kind), terms) && ResolvedArms(arms, x, Inside(kind)) && Owned(Inside(kind))
    ensures PassableArms(arms) && BottomsLookArms(arms, x)
    decreases arms, 0
  {
    if arms.Arm? {
      CoveredPassesAll(arms.body, x, kind, terms);
      CoveredPassesArms(arms.rest, x, kind, terms);
    }
  }

  lemma {:induction false} CoveredPassesElse(els: Else, x: Id, kind: Kind, terms: Terms)
    requires CoveredElse(els, x, Inside(kind), terms) && ResolvedElse(els, x, Inside(kind)) && Owned(Inside(kind))
    ensures PassableElse(els) && BottomsLookElse(els, x)
    decreases els, 0
  {
    if els.ElseBody? { CoveredPassesAll(els.body, x, kind, terms); }
  }
}
