/** Whether a type owns something there is one of, can be copied, or has something to release:
    three depth-first walks over the parts of a type, with the set of names on the path to
    cut cycles.  Types are non-generic; the type table may be cyclic. */
module ResourceWalks {
  type Name = string

  datatype Handle = Raw | Unique | Sub | Weak

  datatype Type =
    | Named(name: Name)                  // a primitive, a declared type or an unknown name
    | Pointer(handle: Handle, pointee: Name)
    | Array(element: Name)
    | Tuple(elements: seq<Type>)
    | Function
    | String
    | Plugin(isResource: bool)

  datatype MemberKind = Field | Property | Method

  datatype Member = Member(name: Name, kind: MemberKind, isStatic: bool, of: Type)

  /** Classes and structs are walked; interfaces, enums and the like are not. */
  datatype Definition = Definition(walked: bool, members: seq<Member>, parents: seq<Name>)

  type Table = map<Name, Definition>

  datatype Question = Owns | Uncopyable | Releases

  /** What a type says by itself: yes, no, or ask its parts. */
  datatype Verdict = Yes | No | Ask(parts: seq<Type>)

  // ---- One type ----

  predicate Relevant(q: Question, m: Member) {
    !m.isStatic && (m.kind == Field || (m.kind == Property && q != Uncopyable))
  }

  function MemberTypes(q: Question, members: seq<Member>): seq<Type> {
    if |members| == 0 then []
    else MemberTypes(q, members[..|members| - 1]) +
         (if Relevant(q, members[|members| - 1]) then [members[|members| - 1].of] else [])
  }

  function ParentTypes(parents: seq<Name>): seq<Type>
  {
    seq(|parents|, i requires 0 <= i < |parents| => Named(parents[i]))
  }

  predicate HasDestroy(members: seq<Member>) { exists i :: 0 <= i < |members| && members[i].name == "destroy" }

  function Judge(table: Table, q: Question, t: Type): Verdict {
    match t
    case Pointer(h, _) => if h == Unique then Yes else No
    case Array(_) => Yes
    case Tuple(elements) => Ask(elements)
    case Function => if q == Releases then Yes else No
    case String => if q == Releases then Yes else No
    case Plugin(isResource) => if isResource && q != Uncopyable then Yes else No
    case Named(n) =>
      if n !in table || !table[n].walked then No
      else if q != Uncopyable && HasDestroy(table[n].members) then Yes
      else Ask(MemberTypes(q, table[n].members) + ParentTypes(table[n].parents))
  }

  // ---- The walk ----

  function Size(t: Type): nat {
    if t.Tuple? then 1 + SizeAll(t.elements) else 0
  }

  function SizeAll(ts: seq<Type>): nat {
    if |ts| == 0 then 0 else SizeAll(ts[..|ts| - 1]) + 1 + Size(ts[|ts| - 1])
  }

  lemma {:induction false} SizeOfPart(ts: seq<Type>, i: nat)
    requires i < |ts|
    ensures Size(ts[i]) < SizeAll(ts)
  {
    if i < |ts| - 1 { SizeOfPart(ts[..|ts| - 1], i); }
  }

  /** Names of the table not on the path. */
  function Left(table: Table, path: set<Name>): nat { |table.Keys - path| }

  /** The walk: `path` holds the names being looked at. */
  predicate Walk(table: Table, q: Question, t: Type, path: set<Name>)
    decreases Left(table, path), Size(t), 0
  {
    match Judge(table, q, t)
    case Yes => !(t.Named? && t.name in path)
    case No => false
    case Ask(parts) =>
      if t.Named? then
        t.name !in path && (Shorter(table, path, t.name); WalkNamed(table, q, parts, path + {t.name}))
      else WalkTuple(table, q, parts, |parts|, path)
  }

  lemma Shorter(table: Table, path: set<Name>, n: Name)
    requires n !in path && n in table
    ensures Left(table, path + {n}) < Left(table, path)
  {
    assert table.Keys - (path + {n}) == (table.Keys - path) - {n};
  }

  predicate WalkNamed(table: Table, q: Question, parts: seq<Type>, path: set<Name>)
    decreases Left(table, path), SizeAll(parts) + 1, 1
  {
    WalkTuple(table, q, parts, |parts|, path)
  }

  /** Whether one of the first `n` parts says yes. */
  predicate WalkTuple(table: Table, q: Question, parts: seq<Type>, n: nat, path: set<Name>)
    requires n <= |parts|
    decreases Left(table, path), SizeAll(parts), n
  {
    n > 0 && (WalkTuple(table, q, parts, n - 1, path) || (SizeOfPart(parts, n - 1); Walk(table, q, parts[n - 1], path)))
  }

  // ---- Reachability, said without the walk ----

  /** `u` is a part of `t` that the question looks at: an element of a tuple, or an instance
      field or a parent of a class or struct; owning and releasing also look at instance
      properties. */
  ghost predicate PartOf(table: Table, q: Question, t: Type, u: Type) {
    || (t.Tuple? && u in t.elements)
    || (t.Named? && t.name in table && table[t.name].walked && u.Named? && u.name in table[t.name].parents)
    || (t.Named? && t.name in table && table[t.name].walked && exists m ::
          && m in table[t.name].members && m.of == u && !m.isStatic
          && (m.kind == Field || (m.kind == Property && (q == Owns || q == Releases))))
  }

  /** What settles the question: an owning handle or an array settles all three; a class with
      a `destroy` member or a plugin's resource is owned and released; functions and strings
      are only released. */
  ghost predicate Settles(table: Table, q: Question, t: Type) {
    || (t.Pointer? && t.handle == Unique) || t.Array?
    || ((q == Owns || q == Releases) && t.Plugin? && t.isResource)
    || ((q == Owns || q == Releases) && t.Named? && t.name in table && table[t.name].walked
        && exists m :: m in table[t.name].members && m.name == "destroy")
    || (q == Releases && (t.Function? || t.String?))
  }

  lemma {:induction false} MemberTypesAre(q: Question, members: seq<Member>, u: Type)
    ensures u in MemberTypes(q, members) <==> exists m :: m in members && Relevant(q, m) && m.of == u
  {
    if |members| > 0 {
      var front, last := members[..|members| - 1], members[|members| - 1];
      MemberTypesAre(q, front, u);
      assert members == front + [last];
      assert forall m :: m in members <==> m in front || m == last;
    }
  }

  /** One step of the walk, against the two definitions above. */
  lemma JudgeIsRight(table: Table, q: Question, t: Type)
    ensures Judge(table, q, t).Yes? <==> Settles(table, q, t)
    ensures Judge(table, q, t).No? ==> forall u :: !PartOf(table, q, t, u)
    ensures Judge(table, q, t).Ask? ==> forall u :: u in Judge(table, q, t).parts <==> PartOf(table, q, t, u)
  {
    if t.Named? && t.name in table && table[t.name].walked {
      var d := table[t.name];
      assert HasDestroy(d.members) <==> exists m :: m in d.members && m.name == "destroy";
      forall u ensures u in MemberTypes(q, d.members) + ParentTypes(d.parents) <==> PartOf(table, q, t, u) {
        MemberTypesAre(q, d.members, u);
        ParentTypesAre(d.parents, u);
      }
    }
  }

  lemma ParentTypesAre(parents: seq<Name>, u: Type)
    ensures u in ParentTypes(parents) <==> u.Named? && u.name in parents
  {
    if u.Named? && u.name in parents {
      var i :| 0 <= i < |parents| && parents[i] == u.name;
      assert ParentTypes(parents)[i] == u;
    }
  }

  /** A chain of parts from `t` to one that settles the question. */
  ghost predicate Chain(table: Table, q: Question, t: Type, chain: seq<Type>) {
    && |chain| > 0 && chain[0] == t
    && Settles(table, q, chain[|chain| - 1])
    && forall i | 0 <= i < |chain| - 1 :: PartOf(table, q, chain[i], chain[i + 1])
  }

  ghost predicate Reaches(table: Table, q: Question, t: Type) { exists chain :: Chain(table, q, t, chain) }

  predicate Avoids(chain: seq<Type>, path: set<Name>) {
    forall i | 0 <= i < |chain| :: chain[i].Named? ==> chain[i].name !in path
  }

  lemma {:induction false} WalkTupleFinds(table: Table, q: Question, parts: seq<Type>, n: nat, path: set<Name>)
    requires n <= |parts|
    ensures WalkTuple(table, q, parts, n, path) <==> exists i :: 0 <= i < n && Walk(table, q, parts[i], path)
    decreases n
  {
    if n > 0 { WalkTupleFinds(table, q, parts, n - 1, path); }
  }

  /** What the walk finds is there. */
  lemma {:induction false} WalkIsSound(table: Table, q: Question, t: Type, path: set<Name>)
    requires Walk(table, q, t, path)
    ensures Reaches(table, q, t)
    decreases Left(table, path), Size(t)
  {
    hide Judge, SizeAll, Left, Chain, PartOf, Settles;
    JudgeIsRight(table, q, t);
    match Judge(table, q, t)
    case Yes => ChainOfOne(table, q, t);
    case Ask(parts) =>
      var longer := if t.Named? then path + {t.name} else path;
      WalkTupleFinds(table, q, parts, |parts|, longer);
      var i :| 0 <= i < |parts| && Walk(table, q, parts[i], longer);
      WalkShrinks(table, q, t, parts, i, path);
      WalkIsSound(table, q, parts[i], longer);
      ChainGrows(table, q, t, parts[i]);
  }

  lemma WalkShrinks(table: Table, q: Question, t: Type, parts: seq<Type>, i: nat, path: set<Name>)
    requires Judge(table, q, t) == Ask(parts) && i < |parts| && Walk(table, q, t, path)
    ensures t.Named? ==> Left(table, path + {t.name}) < Left(table, path)
    ensures !t.Named? ==> Size(parts[i]) < Size(t)
  {
    if t.Named? { Shorter(table, path, t.name); } else { SizeOfPart(parts, i); }
  }

  lemma ChainOfOne(table: Table, q: Question, t: Type)
    requires Settles(table, q, t)
    ensures Reaches(table, q, t)
  {
    assert Chain(table, q, t, [t]);
  }

  lemma ChainGrows(table: Table, q: Question, t: Type, u: Type)
    requires PartOf(table, q, t, u) && Reaches(table, q, u)
    ensures Reaches(table, q, t)
  {
    var chain :| Chain(table, q, u, chain);
    assert Chain(table, q, t, [t] + chain);
  }

  /** What is there is found: a name already on the path is no loss, because the chain can
      be taken up where it last passes through that name. */
  lemma {:induction false} WalkIsComplete(table: Table, q: Question, t: Type, chain: seq<Type>, path: set<Name>)
    requires Chain(table, q, t, chain) && Avoids(chain, path)
    ensures Walk(table, q, t, path)
    decreases |chain|
  {
    hide Judge, PartOf, Settles, SizeAll, Left;
    JudgeIsRight(table, q, t);
    assert chain[0] == t && (|chain| > 1 ==> PartOf(table, q, chain[0], chain[1]));
    if Judge(table, q, t).Ask? {
      if t.Named? && exists i :: 0 < i < |chain| && chain[i] == t {
        var i :| 0 < i < |chain| && chain[i] == t;
        WalkIsComplete(table, q, t, chain[i..], path);
      } else {
        var parts := Judge(table, q, t).parts;
        var longer := if t.Named? then path + {t.name} else path;
        WalkIsComplete(table, q, chain[1], chain[1..], longer);
        WalkTupleFinds(table, q, parts, |parts|, longer);
      }
    }
  }

  /** The walk terminates on every table and decides exactly whether a chain of parts leads
      to one that settles the question. */
  lemma WalkDecidesReachability(table: Table, q: Question, t: Type)
    ensures Walk(table, q, t, {}) <==> Reaches(table, q, t)
  {
    if Walk(table, q, t, {}) { WalkIsSound(table, q, t, {}); }
    if Reaches(table, q, t) {
      var chain :| Chain(table, q, t, chain);
      WalkIsComplete(table, q, t, chain, {});
    }
  }

  // ---- The three questions ----

  /** `p` asks at least what `q` asks. */
  lemma MoreAnswers(table: Table, q: Question, p: Question, t: Type)
    requires (q == Uncopyable && p == Owns) || (q == Owns && p == Releases)
    ensures Reaches(table, q, t) ==> Reaches(table, p, t)
  {
    if Reaches(table, q, t) {
      var chain :| Chain(table, q, t, chain);
      assert Chain(table, p, t, chain);
    }
  }

  /** What cannot be copied owns something there is one of, and what owns it has something
      to release. */
  lemma UncopyableOwnsReleases(table: Table, t: Type)
    ensures Walk(table, Uncopyable, t, {}) ==> Walk(table, Owns, t, {})
    ensures Walk(table, Owns, t, {}) ==> Walk(table, Releases, t, {})
  {
    WalkDecidesReachability(table, Uncopyable, t);
    WalkDecidesReachability(table, Owns, t);
    WalkDecidesReachability(table, Releases, t);
    MoreAnswers(table, Uncopyable, Owns, t);
    MoreAnswers(table, Owns, Releases, t);
  }

  // ---- As the analyzer does it: one set, added to and taken from ----

  class Inspector {
    const table: Table
    const question: Question
    var visiting: set<Name>

    constructor (table: Table, question: Question)
      ensures this.table == table && this.question == question && visiting == {}
    {
      this.table, this.question, visiting := table, question, {};
    }

    /** Answers for one type and leaves the set as it was. */
    method Inspect(t: Type) returns (found: bool)
      modifies this
      ensures visiting == old(visiting) && found == Walk(table, question, t, visiting)
      decreases Left(table, visiting), Size(t), 1
    {
      match t
      case Pointer(h, _) => found := h == Unique;
      case Array(_) => found := true;
      case Function => found := question == Releases;
      case String => found := question == Releases;
      case Plugin(isResource) => found := isResource && question != Uncopyable;
      case Tuple(elements) => found := InspectAll(elements);
      case Named(n) =>
        if n in visiting || n !in table || !table[n].walked { return false; }
        Shorter(table, visiting, n);
        visiting := visiting + {n};
        var destroys := question != Uncopyable && exists m <- table[n].members :: m.name == "destroy";
        assert HasDestroy(table[n].members) <==> exists m <- table[n].members :: m.name == "destroy";
        if destroys { found := true; }
        else { found := InspectAll(MemberTypes(question, table[n].members) + ParentTypes(table[n].parents)); }
        visiting := visiting - {n};
    }

    /** Whether one of the parts says yes; stops at the first that does. */
    method InspectAll(parts: seq<Type>) returns (found: bool)
      modifies this
      ensures visiting == old(visiting) && found == WalkTuple(table, question, parts, |parts|, visiting)
      decreases Left(table, visiting), SizeAll(parts), 2
    {
      found := false;
      var i := 0;
      while i < |parts|
        invariant 0 <= i <= |parts| && visiting == old(visiting)
        invariant found == WalkTuple(table, question, parts, i, visiting)
      {
        SizeOfPart(parts, i);
        found := Inspect(parts[i]);
        i := i + 1;
        if found {
          WalkTupleFinds(table, question, parts, i, visiting);
          WalkTupleFinds(table, question, parts, |parts|, visiting);
          return;
        }
      }
    }
  }
}
