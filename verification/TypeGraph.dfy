/** The class and interface graph of non-generic types: which types a type can be seen as,
    and the least type two pointers can both be seen as. */
module TypeGraph {
  type Name = string

  /** Declared types and their direct parents; a name that is not declared has none. */
  type Parents = map<Name, seq<Name>>

  datatype Kind = Raw | Unique | Sub | Weak

  datatype Pointer = Pointer(kind: Kind, pointee: Name)

  datatype Outcome = NoCommonType | Ambiguous | Common(pointer: Pointer)

  /** No type is its own ancestor: parents rank lower. */
  ghost predicate Acyclic(types: Parents, rank: map<Name, nat>) {
    && types.Keys <= rank.Keys
    && forall t, i | t in types && 0 <= i < |types[t]| ::
         types[t][i] in types ==> rank[types[t][i]] < rank[t]
  }

  /** Parents are types: an unresolved one ("" or "error") is reported and not recorded. */
  predicate Resolved(types: Parents) {
    forall t, i | t in types && 0 <= i < |types[t]| :: IsType(types[t][i])
  }

  predicate IsType(t: Name) { t != "" && t != "error" }

  ghost function Height(types: Parents, rank: map<Name, nat>, t: Name): nat
    requires Acyclic(types, rank)
  {
    if t in types then rank[t] + 1 else 0
  }

  /** Every type `t` can be seen as, itself included. */
  function Up(types: Parents, t: Name, ghost rank: map<Name, nat>): set<Name>
    requires Acyclic(types, rank)
    decreases Height(types, rank, t), 0
  {
    if t in types then {t} + UpAll(types, t, |types[t]|, rank) else {t}
  }

  /** The types above the first `n` parents of `t`. */
  function UpAll(types: Parents, t: Name, n: nat, ghost rank: map<Name, nat>): set<Name>
    requires Acyclic(types, rank) && t in types && n <= |types[t]|
    decreases rank[t], n
  {
    if n == 0 then {} else UpAll(types, t, n - 1, rank) + Up(types, types[t][n - 1], rank)
  }

  /** IsDerivedFrom: recursion through the parents. */
  predicate IsDerivedFrom(types: Parents, t: Name, base: Name, ghost rank: map<Name, nat>)
    requires Acyclic(types, rank)
    decreases Height(types, rank, t), 0
  {
    t == base || (t in types && AnyDerivedFrom(types, t, 0, base, rank))
  }

  predicate AnyDerivedFrom(types: Parents, t: Name, i: nat, base: Name, ghost rank: map<Name, nat>)
    requires Acyclic(types, rank) && t in types && i <= |types[t]|
    decreases rank[t], |types[t]| - i
  {
    i < |types[t]| &&
    (types[t][i] == base || IsDerivedFrom(types, types[t][i], base, rank)
     || AnyDerivedFrom(types, t, i + 1, base, rank))
  }

  // ---- The set view ----

  lemma {:induction false} UpAllHas(types: Parents, t: Name, n: nat, rank: map<Name, nat>, u: Name)
    requires Acyclic(types, rank) && t in types && n <= |types[t]|
    ensures u in UpAll(types, t, n, rank) <==> exists i :: 0 <= i < n && u in Up(types, types[t][i], rank)
    decreases n
  {
    if n > 0 { UpAllHas(types, t, n - 1, rank, u); }
  }

  /** IsDerivedFrom accepts exactly the types above. */
  lemma {:induction false} DerivedIsUp(types: Parents, t: Name, base: Name, rank: map<Name, nat>)
    requires Acyclic(types, rank)
    ensures IsDerivedFrom(types, t, base, rank) <==> base in Up(types, t, rank)
    decreases Height(types, rank, t), 0
  {
    if t in types && t != base {
      AnyDerivedIsUp(types, t, 0, base, rank);
      UpAllHas(types, t, |types[t]|, rank, base);
    }
  }

  lemma {:induction false} AnyDerivedIsUp(types: Parents, t: Name, i: nat, base: Name, rank: map<Name, nat>)
    requires Acyclic(types, rank) && t in types && i <= |types[t]|
    ensures AnyDerivedFrom(types, t, i, base, rank) <==>
            exists k :: i <= k < |types[t]| && base in Up(types, types[t][k], rank)
    decreases rank[t], |types[t]| - i
  {
    if i < |types[t]| {
      UpReflexive(types, types[t][i], rank);
      DerivedIsUp(types, types[t][i], base, rank);
      AnyDerivedIsUp(types, t, i + 1, base, rank);
    }
  }

  lemma UpReflexive(types: Parents, t: Name, rank: map<Name, nat>)
    requires Acyclic(types, rank)
    ensures t in Up(types, t, rank)
  {
  }

  lemma {:induction false} UpTransitive(types: Parents, t: Name, u: Name, rank: map<Name, nat>)
    requires Acyclic(types, rank) && u in Up(types, t, rank)
    ensures Up(types, u, rank) <= Up(types, t, rank)
    decreases Height(types, rank, t)
  {
    if u != t {
      UpAllHas(types, t, |types[t]|, rank, u);
      var i :| 0 <= i < |types[t]| && u in Up(types, types[t][i], rank);
      UpTransitive(types, types[t][i], u, rank);
      forall v | v in Up(types, u, rank) ensures v in Up(types, t, rank) {
        UpAllHas(types, t, |types[t]|, rank, v);
      }
    }
  }

  /** Strict ancestors rank lower, so the order is antisymmetric. */
  lemma {:induction false} UpDescends(types: Parents, t: Name, u: Name, rank: map<Name, nat>)
    requires Acyclic(types, rank) && u in Up(types, t, rank) && u != t
    ensures t in types && Height(types, rank, u) < Height(types, rank, t)
    decreases Height(types, rank, t)
  {
    UpAllHas(types, t, |types[t]|, rank, u);
    var i :| 0 <= i < |types[t]| && u in Up(types, types[t][i], rank);
    if u != types[t][i] { UpDescends(types, types[t][i], u, rank); }
  }

  /** From `t` parent by parent to `u`. */
  predicate Climbs(types: Parents, t: Name, u: Name, chain: seq<Name>) {
    && |chain| > 0 && chain[0] == t && chain[|chain| - 1] == u
    && forall i | 0 <= i < |chain| - 1 :: chain[i] in types && chain[i + 1] in types[chain[i]]
  }

  /** The types above are those some chain of parents leads to. */
  lemma UpIsClimbed(types: Parents, t: Name, u: Name, rank: map<Name, nat>)
    requires Acyclic(types, rank)
    ensures u in Up(types, t, rank) <==> exists chain :: Climbs(types, t, u, chain)
  {
    if u in Up(types, t, rank) { var chain := ChainUp(types, t, u, rank); }
    if chain :| Climbs(types, t, u, chain) { ClimbIsUp(types, t, u, chain, rank); }
  }

  lemma {:induction false} ChainUp(types: Parents, t: Name, u: Name, rank: map<Name, nat>) returns (chain: seq<Name>)
    requires Acyclic(types, rank) && u in Up(types, t, rank)
    ensures Climbs(types, t, u, chain)
    decreases Height(types, rank, t)
  {
    if u == t {
      chain := [t];
    } else {
      UpAllHas(types, t, |types[t]|, rank, u);
      var i :| 0 <= i < |types[t]| && u in Up(types, types[t][i], rank);
      var rest := ChainUp(types, types[t][i], u, rank);
      chain := [t] + rest;
    }
  }

  lemma {:induction false} ClimbIsUp(types: Parents, t: Name, u: Name, chain: seq<Name>, rank: map<Name, nat>)
    requires Acyclic(types, rank) && Climbs(types, t, u, chain)
    ensures u in Up(types, t, rank)
    decreases |chain|
  {
    if |chain| == 1 {
      UpReflexive(types, t, rank);
    } else {
      assert chain[0] in types && chain[0 + 1] in types[chain[0]];
      ClimbIsUp(types, chain[1], u, chain[1..], rank);
      UpAllHas(types, t, |types[t]|, rank, u);
    }
  }

  // ---- CollectAncestors ----

  function Elements(s: seq<Name>): set<Name> { set i | 0 <= i < |s| :: s[i] }

  /** What is already collected contains everything above each of its types that lies above `t`. */
  ghost predicate Complete(types: Parents, t: Name, into: seq<Name>, rank: map<Name, nat>)
    requires Acyclic(types, rank)
  {
    forall u | u in into && u in Up(types, t, rank) :: Up(types, u, rank) <= Elements(into)
  }

  lemma DistinctSnoc(s: seq<Name>, t: Name)
    requires Distinct(s) && t !in s
    ensures Distinct(s + [t])
  {
  }

  lemma UpUnfolds(types: Parents, t: Name, rank: map<Name, nat>)
    requires Acyclic(types, rank)
    ensures t in types ==>
              Up(types, t, rank) == {t} + UpAll(types, t, |types[t]|, rank) && UpAll(types, t, 0, rank) == {}
    ensures t !in types ==> Up(types, t, rank) == {t}
  {
  }

  lemma UpAllStep(types: Parents, t: Name, i: nat, rank: map<Name, nat>)
    requires Acyclic(types, rank) && Resolved(types) && t in types && i < |types[t]|
    ensures UpAll(types, t, i + 1, rank) == UpAll(types, t, i, rank) + Up(types, types[t][i], rank)
    ensures IsType(types[t][i])
  {
  }

  lemma AlreadyCollected(types: Parents, t: Name, into: seq<Name>, rank: map<Name, nat>)
    requires Acyclic(types, rank) && Complete(types, t, into, rank) && t in into
    ensures Elements(into) == Elements(into) + Up(types, t, rank)
  {
    UpReflexive(types, t, rank);
  }

  lemma ElementsOfSnoc(s: seq<Name>, t: Name)
    ensures Elements(s + [t]) == Elements(s) + {t}
  {
    assert (s + [t])[|s|] == t;
    forall u | u in Elements(s) ensures u in Elements(s + [t]) {
      var i :| 0 <= i < |s| && s[i] == u;
      assert (s + [t])[i] == u;
    }
  }

  predicate Distinct(s: seq<Name>) { forall i, j | 0 <= i < j < |s| :: s[i] != s[j] }

  /** Depth first, each type once, into the list the caller passes along. */
  method CollectAncestors(types: Parents, t: Name, collected: seq<Name>, ghost rank: map<Name, nat>)
    returns (into: seq<Name>)
    requires Acyclic(types, rank) && Resolved(types)
    requires Distinct(collected) && Complete(types, t, collected, rank)
    ensures Distinct(into) && collected <= into
    ensures Elements(into) == Elements(collected) + if t != "" && t != "error" then Up(types, t, rank) else {}
    decreases Height(types, rank, t)
  {
    hide Up, UpAll, Elements, Complete, Distinct;
    into := collected;
    if !IsType(t) { return; }
    UpUnfolds(types, t, rank);
    if t in into {
      AlreadyCollected(types, t, into, rank);
      return;
    }
    into := into + [t];
    ElementsOfSnoc(collected, t);
    DistinctSnoc(collected, t);
    if t in types {
      var i := 0;
      while i < |types[t]|
        invariant 0 <= i <= |types[t]|
        invariant Distinct(into) && collected <= into
        invariant Elements(into) == Elements(collected) + {t} + UpAll(types, t, i, rank)
      {
        ParentComplete(types, t, i, collected, into, rank);
        UpAllStep(types, t, i, rank);
        into := CollectAncestors(types, types[t][i], into, rank);
        i := i + 1;
      }
    }
  }

  lemma ParentComplete(types: Parents, t: Name, i: nat, collected: seq<Name>, into: seq<Name>, rank: map<Name, nat>)
    requires Acyclic(types, rank) && t in types && i < |types[t]| && collected <= into
    requires Complete(types, t, collected, rank)
    requires Elements(into) == Elements(collected) + {t} + UpAll(types, t, i, rank)
    ensures Complete(types, types[t][i], into, rank)
  {
    var p := types[t][i];
    forall u | u in into && u in Up(types, p, rank) ensures Up(types, u, rank) <= Elements(into) {
      assert u in Elements(into);
      if u == t {
        UpDescends(types, t, p, rank) by {
          UpReflexive(types, p, rank);
          ParentIsUp(types, t, i, p, rank);
          NotOwnParent(types, t, i, rank);
        }
        if u != p { UpDescends(types, p, t, rank); }
      } else if u in UpAll(types, t, i, rank) {
        UpAllHas(types, t, i, rank, u);
        var k :| 0 <= k < i && u in Up(types, types[t][k], rank);
        UpTransitive(types, types[t][k], u, rank);
        forall v | v in Up(types, u, rank) ensures v in UpAll(types, t, i, rank) { UpAllHas(types, t, i, rank, v); }
      } else {
        ParentIsUp(types, t, i, u, rank);
        assert u in collected;
      }
    }
  }

  lemma ParentIsUp(types: Parents, t: Name, i: nat, u: Name, rank: map<Name, nat>)
    requires Acyclic(types, rank) && t in types && i < |types[t]| && u in Up(types, types[t][i], rank)
    ensures u in Up(types, t, rank)
  {
    UpAllHas(types, t, |types[t]|, rank, u);
  }

  lemma NotOwnParent(types: Parents, t: Name, i: nat, rank: map<Name, nat>)
    requires Acyclic(types, rank) && t in types && i < |types[t]|
    ensures types[t][i] != t
  {
  }

  // ---- CommonPointerType ----

  predicate IsCommon(types: Parents, l: Name, r: Name, u: Name, ghost rank: map<Name, nat>)
    requires Acyclic(types, rank)
  {
    u in Up(types, l, rank) && u in Up(types, r, rank)
  }

  /** The least common supertype: below every other one. */
  ghost predicate IsLeast(types: Parents, l: Name, r: Name, c: Name, rank: map<Name, nat>)
    requires Acyclic(types, rank)
  {
    && IsCommon(types, l, r, c, rank)
    && forall u | IsCommon(types, l, r, u, rank) :: u in Up(types, c, rank)
  }

  /** What the answer for two pointers means. */
  ghost predicate Answers(types: Parents, left: Pointer, right: Pointer, result: Outcome, rank: map<Name, nat>)
    requires Acyclic(types, rank)
  {
    var l, r := left.pointee, right.pointee;
    match result
    case NoCommonType => left.kind != right.kind || forall u :: !IsCommon(types, l, r, u, rank)
    case Ambiguous =>
      && left.kind == right.kind
      && (exists u :: IsCommon(types, l, r, u, rank)) && forall c :: !IsLeast(types, l, r, c, rank)
    case Common(p) => left.kind == right.kind == p.kind && IsLeast(types, l, r, p.pointee, rank)
  }

  /** For pointers of one kind, assignable means the source derives from the target. */
  predicate IsAssignable(types: Parents, target: Pointer, source: Pointer, ghost rank: map<Name, nat>)
    requires Acyclic(types, rank) && target.kind == source.kind
  {
    target == source || IsDerivedFrom(types, source.pointee, target.pointee, rank)
  }

  method CommonPointerType(types: Parents, left: Pointer, right: Pointer, ghost rank: map<Name, nat>)
    returns (result: Outcome)
    requires Acyclic(types, rank) && Resolved(types) && IsType(left.pointee) && IsType(right.pointee)
    ensures Answers(types, left, right, result, rank)
  {
    if left.kind != right.kind { return NoCommonType; }
    var l, r := left.pointee, right.pointee;
    DerivedIsUp(types, r, l, rank);
    DerivedIsUp(types, l, r, rank);
    UpReflexive(types, l, rank);
    UpReflexive(types, r, rank);
    if IsAssignable(types, left, right, rank) { return Common(left); }
    if IsAssignable(types, right, left, rank) { return Common(right); }
    var ancestors := CollectAncestors(types, l, [], rank);
    assert Elements([]) == {};
    var shared: seq<Name> := [];
    var i := 0;
    while i < |ancestors|
      invariant 0 <= i <= |ancestors|
      invariant forall u :: u in shared <==> u in ancestors[..i] && u in Up(types, r, rank)
      invariant forall k | 0 <= k < |shared| :: shared[k] in ancestors[..i]
    {
      DerivedIsUp(types, r, ancestors[i], rank);
      assert ancestors[..i + 1] == ancestors[..i] + [ancestors[i]];
      if IsDerivedFrom(types, r, ancestors[i], rank) { shared := shared + [ancestors[i]]; }
      i := i + 1;
    }
    assert forall u :: u in ancestors <==> u in Elements(ancestors);
    assert ancestors[..|ancestors|] == ancestors;
    assert forall u :: u in shared <==> IsCommon(types, l, r, u, rank);
    if shared == [] { return NoCommonType; }
    assert IsCommon(types, l, r, shared[0], rank);
    result := PickLeast(types, l, r, shared, left.kind, rank);
    LeastOrNone(types, left, right, shared, result, rank);
  }

  /** Of the shared types, the one that derives from all the others. */
  method PickLeast(types: Parents, l: Name, r: Name, shared: seq<Name>, kind: Kind, ghost rank: map<Name, nat>)
    returns (result: Outcome)
    requires Acyclic(types, rank) && shared != []
    requires forall u :: u in shared <==> IsCommon(types, l, r, u, rank)
    ensures result.Common? ==> result.pointer.kind == kind && IsLeast(types, l, r, result.pointer.pointee, rank)
    ensures result.Ambiguous? <==> forall u | u in shared :: !IsLeast(types, l, r, u, rank)
    ensures !result.NoCommonType?
  {
    var found, best := false, shared[0];
    var i := 0;
    while i < |shared|
      invariant 0 <= i <= |shared|
      invariant found ==> IsLeast(types, l, r, best, rank) && best in shared
      invariant !found ==> forall k | 0 <= k < i :: !IsLeast(types, l, r, shared[k], rank)
    {
      var least, j := true, 0;
      while j < |shared|
        invariant 0 <= j <= |shared|
        invariant least <==> forall k | 0 <= k < j :: shared[k] in Up(types, shared[i], rank)
      {
        DerivedIsUp(types, shared[i], shared[j], rank);
        UpReflexive(types, shared[i], rank);
        least := least && (shared[j] == shared[i] || IsDerivedFrom(types, shared[i], shared[j], rank));
        j := j + 1;
      }
      assert least <==> IsLeast(types, l, r, shared[i], rank);
      if least {
        if found && best != shared[i] {
          LeastIsUnique(types, l, r, best, shared[i], rank);
          return Ambiguous;
        }
        found, best := true, shared[i];
      }
      i := i + 1;
    }
    result := if found then Common(Pointer(kind, best)) else Ambiguous;
  }

  lemma LeastIsUnique(types: Parents, l: Name, r: Name, a: Name, b: Name, rank: map<Name, nat>)
    requires Acyclic(types, rank) && IsLeast(types, l, r, a, rank) && IsLeast(types, l, r, b, rank)
    ensures a == b
  {
    if a != b {
      UpDescends(types, a, b, rank);
      UpDescends(types, b, a, rank);
    }
  }

  lemma LeastOrNone(types: Parents, left: Pointer, right: Pointer, shared: seq<Name>, result: Outcome,
                    rank: map<Name, nat>)
    requires Acyclic(types, rank) && left.kind == right.kind && shared != []
    requires forall u :: u in shared <==> IsCommon(types, left.pointee, right.pointee, u, rank)
    requires result.Common? ==>
               && result.pointer.kind == left.kind
               && IsLeast(types, left.pointee, right.pointee, result.pointer.pointee, rank)
    requires result.Ambiguous? <==> forall u | u in shared :: !IsLeast(types, left.pointee, right.pointee, u, rank)
    requires !result.NoCommonType?
    ensures Answers(types, left, right, result, rank)
  {
    assert shared[0] in shared;
  }

  /** There is exactly one answer, and it does not depend on the order of the operands. */
  lemma AnswerIsUnique(types: Parents, left: Pointer, right: Pointer, a: Outcome, b: Outcome, rank: map<Name, nat>)
    requires Acyclic(types, rank)
    requires Answers(types, left, right, a, rank) && Answers(types, right, left, b, rank)
    ensures a == b
  {
    var l, r := left.pointee, right.pointee;
    assert forall u :: IsCommon(types, l, r, u, rank) <==> IsCommon(types, r, l, u, rank);
    assert forall c :: IsLeast(types, l, r, c, rank) <==> IsLeast(types, r, l, c, rank);
    if a.Common? && b.Common? { LeastIsUnique(types, l, r, a.pointer.pointee, b.pointer.pointee, rank); }
  }
}
