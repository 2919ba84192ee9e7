/** Managed owners form a forest: an object belongs to a variable or to a field of another
    object.  The checker keeps one owner per name, re-points every alias when an owner moves,
    and refuses `x.f = move(y)` when that owner says the result would be a cycle. */
module Forest {
  type Id = nat
  type Obj = nat

  datatype Option<T> = None | Some(value: T)

  // ---- What the checker knows ----

  /** A managed pointer variable: its role, whether it can be read, and `pointerOwner`. */
  datatype Name = Name(owner: bool, borrower: bool, init: bool, pointerOwner: Option<Id>)

  type Names = map<Id, Name>

  datatype Op =
    | New(y: Id)                    // y = new T()
    | Borrow(z: Id, y: Id)          // z = y
    | Move(y: Id, z: Id)            // y = move(z)
    | Attach(x: Id, f: nat, y: Id)  // x.f = move(y)

  /** TransferManagedAliases. */
  function Transfer(names: Names, previous: Id, next: Id): Names {
    map n | n in names ::
      if names[n].pointerOwner == Some(previous) then names[n].(pointerOwner := Some(next)) else names[n]
  }

  function TargetOwner(names: Names, x: Id): Id {
    if x in names && names[x].pointerOwner.Some? then names[x].pointerOwner.value else x
  }

  predicate Borrower(names: Names, x: Id) { x in names && names[x].borrower }

  /** An owner whose value can be moved out. */
  predicate Movable(names: Names, y: Id) { y in names && names[y].owner && names[y].init }

  /** The table after an operation, or None when something is reported. */
  function Check(op: Op, names: Names): Option<Names> {
    match op
    case New(y) =>
      if Borrower(names, y) then None else Some(names[y := Name(true, false, true, Some(y))])
    case Borrow(z, y) =>
      if y !in names || !names[y].init then None
      else if z in names && names[z].owner && names[y].pointerOwner.Some? then None
      else
        var was := if z in names then names[z].owner else false;
        Some(names[z := Name(was, names[y].pointerOwner.Some? || Borrower(names, z), true, names[y].pointerOwner)])
    case Move(y, z) =>
      if !Movable(names, z) || Borrower(names, y) then None
      else
        var moved := names[z := names[z].(init := false)];
        Some(Transfer(moved, z, y)[y := Name(true, false, true, Some(y))])
    case Attach(x, _, y) =>
      if !Movable(names, y) || x !in names || TargetOwner(names, x) == y then None
      else Some(Transfer(names[y := names[y].(init := false)], y, TargetOwner(names, x)))
  }

  // ---- What happens ----

  datatype Place = InVariable(x: Id) | InField(parent: Obj, f: nat)

  /** `rank` witnesses that containment goes down: a parent ranks below its parts. */
  datatype World = World(env: map<Id, Obj>, place: map<Obj, Place>, rank: map<Obj, nat>, next: Obj)

  ghost predicate Ranked(w: World) {
    && w.rank.Keys == w.place.Keys
    && (forall o | o in w.place :: o < w.next) && (forall n | n in w.env :: w.env[n] < w.next)
    && (forall o | o in w.place && w.place[o].InField? ::
          w.place[o].parent in w.place && w.rank[w.place[o].parent] < w.rank[o])
  }

  /** The variable that owns the tree an object is in. */
  function Root(w: World, o: Obj): Id
    requires Ranked(w) && o in w.place
    decreases w.rank[o]
  {
    match w.place[o]
    case InVariable(x) => x
    case InField(p, _) => Root(w, p)
  }

  /** `d` is `o` or a part of it. */
  predicate Under(w: World, d: Obj, o: Obj)
    requires Ranked(w) && d in w.place
    decreases w.rank[d]
  {
    d == o || (w.place[d].InField? && Under(w, w.place[d].parent, o))
  }

  /** Releasing the objects in a set of places, each with all its parts. */
  ghost predicate Doomed(w: World, d: Obj, places: set<Place>)
    requires Ranked(w) && d in w.place
    decreases w.rank[d]
  {
    w.place[d] in places || (w.place[d].InField? && Doomed(w, w.place[d].parent, places))
  }

  ghost function Release(w: World, places: set<Place>): World
    requires Ranked(w)
  {
    w.(place := map d | d in w.place && !Doomed(w, d, places) :: w.place[d],
       rank := map d | d in w.place && !Doomed(w, d, places) :: w.rank[d])
  }

  predicate Live(w: World, n: Id) { n in w.env && w.env[n] in w.place }

  /** Put the tree under the root object `o` of variable `y` somewhere else. */
  ghost function Replant(w: World, y: Id, o: Obj, place: Place, base: nat): World
    requires Ranked(w) && o in w.place
  {
    w.(place := w.place[o := place],
       rank := map d | d in w.place :: if Root(w, d) == y then w.rank[d] + base else w.rank[d])
  }

  /** One operation.  None: the program stops because a dangling or null name is used. */
  ghost function Exec(op: Op, w: World): Option<World>
    requires Ranked(w)
  {
    match op
    case New(y) =>
      var r := Release(w, {InVariable(y)});
      Some(r.(env := r.env[y := r.next], place := r.place[r.next := InVariable(y)],
              rank := r.rank[r.next := 0], next := r.next + 1))
    case Borrow(z, y) =>
      if !Live(w, y) then None else Some(w.(env := w.env[z := w.env[y]]))
    case Move(y, z) =>
      if !Live(w, z) || w.place[w.env[z]] != InVariable(z) then None
      else
        var o := w.env[z];
        var r := if y == z then w else Release(w, {InVariable(y)});
        if o !in r.place then None
        else Some(Replant(r, z, o, InVariable(y), 0).(env := (w.env - {z})[y := o]))
    case Attach(x, f, y) =>
      if !Live(w, x) || !Live(w, y) || w.place[w.env[y]] != InVariable(y) then None
      else
        var o, p := w.env[y], w.env[x];
        var r := Release(w, {InField(p, f)});
        if !Ranked(r) || o !in r.place || p !in r.place then None
        else Some(Replant(r, y, o, InField(p, f), r.rank[p] + 1).(env := w.env - {y}))
  }

  // ---- The two together ----

  /** Every live name's owner is the variable that owns the root of the tree its object is in. */
  ghost predicate NamesRight(names: Names, w: World)
    requires Ranked(w)
  {
    forall n: Id | Live(w, n) :: n in names && names[n].pointerOwner == Some(Root(w, w.env[n]))
  }

  /** An object in a variable is what the variable holds. */
  ghost predicate PlacesRight(names: Names, w: World) {
    forall o | o in w.place && w.place[o].InVariable? ::
      var x := w.place[o].x;
      x in w.env && w.env[x] == o && x in names && names[x].owner && names[x].init
  }

  /** An owner that can be read holds the root object of its own tree. */
  ghost predicate OwnersRight(names: Names, w: World) {
    && (forall n | n in names && names[n].owner && names[n].init :: Live(w, n) && w.place[w.env[n]] == InVariable(n))
    && (forall n | n in names && names[n].owner :: !names[n].borrower)
  }

  ghost predicate Agree(names: Names, w: World) {
    Ranked(w) &&
    var a, b, c := NamesRight(names, w), PlacesRight(names, w), OwnersRight(names, w);
    a && b && c
  }

  lemma {:induction false} ReleaseKeeps(w: World, places: set<Place>)
    requires Ranked(w)
    ensures Ranked(Release(w, places))
  {
    var r := Release(w, places);
    forall o | o in r.place && r.place[o].InField?
      ensures r.place[o].parent in r.place && r.rank[r.place[o].parent] < r.rank[o]
    {
      assert !Doomed(w, w.place[o].parent, places);
    }
  }

  /** What survives stays where it is. */
  lemma {:induction false} ReleaseRoot(w: World, places: set<Place>, o: Obj)
    requires Ranked(w) && Ranked(Release(w, places)) && o in Release(w, places).place
    ensures Root(Release(w, places), o) == Root(w, o)
    decreases w.rank[o]
  {
    if w.place[o].InField? { ReleaseRoot(w, places, w.place[o].parent); }
  }

  lemma {:induction false} DoomedByRoot(w: World, d: Obj, y: Id)
    requires Ranked(w) && d in w.place
    ensures Doomed(w, d, {InVariable(y)}) <==> Root(w, d) == y
    decreases w.rank[d]
  {
    if w.place[d].InField? { DoomedByRoot(w, w.place[d].parent, y); }
  }

  /** The top of the tree of an object. */
  lemma {:induction false} RootIsTop(names: Names, w: World, d: Obj)
    requires Agree(names, w) && d in w.place
    ensures var x := Root(w, d);
            Live(w, x) && w.place[w.env[x]] == InVariable(x) && Under(w, d, w.env[x])
    decreases w.rank[d]
  {
    if w.place[d].InField? { RootIsTop(names, w, w.place[d].parent); }
  }

  lemma {:induction false} UnderHasRoot(w: World, d: Obj, o: Obj)
    requires Ranked(w) && d in w.place && o in w.place && Under(w, d, o)
    ensures Root(w, d) == Root(w, o)
    decreases w.rank[d]
  {
    if d != o { UnderHasRoot(w, w.place[d].parent, o); }
  }

  /** Moving a whole tree under another variable or another tree. */
  lemma ReplantKeeps(names: Names, w: World, y: Id, o: Obj, place: Place, base: nat)
    requires Agree(names, w) && Live(w, y) && o == w.env[y] && w.place[o] == InVariable(y)
    requires place.InField? ==>
               place.parent in w.place && Root(w, place.parent) != y && base == w.rank[place.parent] + 1
    ensures Ranked(Replant(w, y, o, place, base))
  {
    var r := Replant(w, y, o, place, base);
    forall d | d in r.place && r.place[d].InField?
      ensures r.place[d].parent in r.place && r.rank[r.place[d].parent] < r.rank[d]
    {
      if d != o { assert Root(w, d) == Root(w, w.place[d].parent); }
    }
  }

  lemma {:induction false} ReplantRoot(names: Names, w: World, y: Id, o: Obj, place: Place, base: nat, d: Obj)
    requires Agree(names, w) && Live(w, y) && o == w.env[y] && w.place[o] == InVariable(y)
    requires place.InField? ==> place.parent in w.place && Root(w, place.parent) != y
    requires Ranked(Replant(w, y, o, place, base)) && d in w.place
    ensures Root(Replant(w, y, o, place, base), d) ==
            if Root(w, d) != y then Root(w, d) else if place.InVariable? then place.x else Root(w, place.parent)
    decreases Root(w, d) == y, w.rank[d]
  {
    var r := Replant(w, y, o, place, base);
    if d == o {
      if place.InField? { ReplantRoot(names, w, y, o, place, base, place.parent); }
    } else if w.place[d].InField? {
      ReplantRoot(names, w, y, o, place, base, w.place[d].parent);
    } else {
      RootIsTop(names, w, d);
    }
  }

  /** What is left after releasing the tree of variable `y`. */
  lemma ReleaseTree(names: Names, w: World, y: Id)
    requires Agree(names, w)
    ensures var r := Release(w, {InVariable(y)});
            && Ranked(r)
            && (forall d | d in w.place :: d in r.place <==> Root(w, d) != y)
            && (forall d | d in r.place :: r.place[d] == w.place[d] && Root(r, d) == Root(w, d))
  {
    ReleaseKeeps(w, {InVariable(y)});
    forall d | d in w.place ensures Doomed(w, d, {InVariable(y)}) <==> Root(w, d) == y { DoomedByRoot(w, d, y); }
    forall d | d in Release(w, {InVariable(y)}).place
      ensures Root(Release(w, {InVariable(y)}), d) == Root(w, d)
    {
      ReleaseRoot(w, {InVariable(y)}, d);
    }
  }

  lemma NewKeeps(names: Names, w: World, y: Id)
    requires Agree(names, w) && Check(New(y), names).Some?
    ensures var r := Exec(New(y), w); r.Some? && Agree(Check(New(y), names).value, r.value)
  {
    hide Agree, Release, Root, Planted, Pruned;
    ReleasePrunes(names, w, y);
    var q := Release(w, {InVariable(y)});
    NewPlants(w, q, y);
    FreshAgrees(names, w, q, y, Exec(New(y), w).value);
  }

  lemma NewPlants(w: World, q: World, y: Id)
    requires Pruned(w, q, y)
    ensures Ranked(q)
    ensures Planted(q, q.(env := q.env[y := q.next], place := q.place[q.next := InVariable(y)],
                          rank := q.rank[q.next := 0], next := q.next + 1), y)
  {
    hide Root;
    FreshKeeps(q, y, q.(env := q.env[y := q.next], place := q.place[q.next := InVariable(y)],
                        rank := q.rank[q.next := 0], next := q.next + 1));
  }

  /** `r` is `q` with a new object in variable `y`. */
  ghost predicate Planted(q: World, r: World, y: Id) {
    && Ranked(q) && Ranked(r) && q.next !in q.place && q.next in r.place
    && r.env == q.env[y := q.next] && r.place[q.next] == InVariable(y) && Root(r, q.next) == y
    && (forall d | d in r.place :: d == q.next || d in q.place)
    && (forall d | d in q.place :: d in r.place && r.place[d] == q.place[d] && Root(r, d) == Root(q, d))
  }

  lemma ReleasePrunes(names: Names, w: World, y: Id)
    requires Agree(names, w)
    ensures Pruned(w, Release(w, {InVariable(y)}), y)
    ensures Release(w, {InVariable(y)}).next == w.next
  {
    ReleaseTree(names, w, y);
  }

  lemma FreshNames(names: Names, w: World, q: World, y: Id, r: World)
    requires Agree(names, w) && !Borrower(names, y) && Pruned(w, q, y) && Planted(q, r, y)
    ensures NamesRight(names[y := Name(true, false, true, Some(y))], r)
  {
    hide PlacesRight, OwnersRight, Root;
    RootsHere(w);
    var after := names[y := Name(true, false, true, Some(y))];
    forall n: Id | Live(r, n) ensures n in after && after[n].pointerOwner == Some(Root(r, r.env[n])) {
      if n != y { assert Live(w, n); }
    }
  }

  lemma FreshOwners(names: Names, w: World, q: World, y: Id, r: World)
    requires Agree(names, w) && !Borrower(names, y) && Pruned(w, q, y) && Planted(q, r, y)
    ensures OwnersRight(names[y := Name(true, false, true, Some(y))], r)
  {
    hide NamesRight, PlacesRight, Root, Pruned, Planted;
    RootsHere(w);
    var after := names[y := Name(true, false, true, Some(y))];
    forall n | n in after && after[n].owner && after[n].init ensures Live(r, n) && r.place[r.env[n]] == InVariable(n) {
      if n != y { OwnerSurvives(names, w, q, y, n); }
      OwnerStands(q, r, y, n);
    }
  }

  lemma OwnerStands(q: World, r: World, y: Id, n: Id)
    requires Planted(q, r, y) && (n != y ==> Live(q, n) && q.place[q.env[n]] == InVariable(n))
    ensures Live(r, n) && r.place[r.env[n]] == InVariable(n)
  {
    hide Ranked, Root;
  }

  lemma OwnerSurvives(names: Names, w: World, q: World, y: Id, n: Id)
    requires Agree(names, w) && Pruned(w, q, y) && n != y && n in names && names[n].owner && names[n].init
    ensures Live(q, n) && q.place[q.env[n]] == InVariable(n)
  {
    hide NamesRight, PlacesRight;
    assert Root(w, w.env[n]) == n;
  }

  lemma FreshPlaces(names: Names, w: World, q: World, y: Id, r: World)
    requires Agree(names, w) && !Borrower(names, y) && Pruned(w, q, y) && Planted(q, r, y)
    ensures PlacesRight(names[y := Name(true, false, true, Some(y))], r)
  {
    hide NamesRight, OwnersRight, Root;
    RootsHere(w);
    var after := names[y := Name(true, false, true, Some(y))];
    forall o | o in r.place && r.place[o].InVariable?
      ensures var x := r.place[o].x; x in r.env && r.env[x] == o && x in after && after[x].owner && after[x].init
    {
      if o != q.next { assert o in w.place && Root(w, o) == w.place[o].x; }
    }
  }

  lemma FreshAgrees(names: Names, w: World, q: World, y: Id, r: World)
    requires Agree(names, w) && !Borrower(names, y) && Pruned(w, q, y) && Planted(q, r, y)
    ensures Agree(names[y := Name(true, false, true, Some(y))], r)
  {
    hide NamesRight, PlacesRight, OwnersRight, Root, Check;
    FreshNames(names, w, q, y, r);
    FreshOwners(names, w, q, y, r);
    FreshPlaces(names, w, q, y, r);
  }

  /** A new object in a variable leaves every other tree alone. */
  lemma FreshRanked(q: World, y: Id, r: World)
    requires Ranked(q)
    requires r == q.(env := q.env[y := q.next], place := q.place[q.next := InVariable(y)],
                     rank := q.rank[q.next := 0], next := q.next + 1)
    ensures Ranked(r)
  {
    assert q.next !in q.place;
    assert r.place.Keys == q.place.Keys + {q.next} && r.rank.Keys == q.rank.Keys + {q.next};
    forall o | o in r.place && r.place[o].InField?
      ensures r.place[o].parent in r.place && r.rank[r.place[o].parent] < r.rank[o]
    {
      assert o in q.place && q.place[o].parent in q.place && q.place[o].parent != q.next;
    }
  }

  lemma FreshKeeps(q: World, y: Id, r: World)
    requires Ranked(q)
    requires r == q.(env := q.env[y := q.next], place := q.place[q.next := InVariable(y)],
                     rank := q.rank[q.next := 0], next := q.next + 1)
    ensures Ranked(r)
    ensures forall d | d in q.place :: Root(r, d) == Root(q, d)
    ensures Root(r, q.next) == y
  {
    hide Ranked;
    FreshRanked(q, y, r);
    forall d | d in q.place ensures Root(r, d) == Root(q, d) { FreshRoot(q, y, r, d); }
  }

  lemma {:induction false} FreshRoot(q: World, y: Id, r: World, d: Obj)
    requires Ranked(q) && Ranked(r) && d in q.place
    requires r == q.(env := q.env[y := q.next], place := q.place[q.next := InVariable(y)],
                     rank := q.rank[q.next := 0], next := q.next + 1)
    ensures Root(r, d) == Root(q, d)
    decreases q.rank[d]
  {
    if q.place[d].InField? { FreshRoot(q, y, r, q.place[d].parent); }
  }

  lemma BorrowKeeps(names: Names, w: World, z: Id, y: Id)
    requires Agree(names, w) && Check(Borrow(z, y), names).Some? && Exec(Borrow(z, y), w).Some?
    ensures Agree(Check(Borrow(z, y), names).value, Exec(Borrow(z, y), w).value)
  {
    hide NamesRight, PlacesRight, OwnersRight, Root;
    var r := Exec(Borrow(z, y), w).value;
    assert Ranked(r) by { BorrowRanked(w, z, y); }
    forall d | d in w.place ensures Root(r, d) == Root(w, d) { SameRoot(w, r, d); }
    BorrowRight(names, w, z, y, r);
  }

  lemma BorrowRanked(w: World, z: Id, y: Id)
    requires Ranked(w) && Live(w, y)
    ensures Ranked(w.(env := w.env[z := w.env[y]]))
  {
  }

  lemma BorrowRight(names: Names, w: World, z: Id, y: Id, r: World)
    requires Agree(names, w) && Check(Borrow(z, y), names).Some? && Live(w, y) && Ranked(r)
    requires r == w.(env := w.env[z := w.env[y]]) && forall d | d in w.place :: Root(r, d) == Root(w, d)
    ensures var after := Check(Borrow(z, y), names).value;
            NamesRight(after, r) && PlacesRight(after, r) && OwnersRight(after, r)
  {
    hide Root, Ranked;
  }

  lemma {:induction false} SameRoot(w: World, r: World, d: Obj)
    requires Ranked(w) && Ranked(r) && r.place == w.place && d in w.place
    ensures Root(r, d) == Root(w, d)
    decreases w.rank[d]
  {
    if w.place[d].InField? { SameRoot(w, r, w.place[d].parent); }
  }

  /** `q` is `w` without the tree of variable `y`. */
  ghost predicate Pruned(w: World, q: World, y: Id) {
    && Ranked(w) && Ranked(q) && q.env == w.env
    && (forall d | d in q.place ::
         d in w.place && q.place[d] == w.place[d] && Root(q, d) == Root(w, d) && Root(w, d) != y)
    && (forall d | d in w.place && Root(w, d) != y :: d in q.place)
  }

  /** `r` is `q` with the tree of variable `z`, whose root object is `o`, in variable `y`. */
  ghost predicate Shifted(q: World, r: World, y: Id, z: Id, o: Obj) {
    && Ranked(q) && Ranked(r) && r.place.Keys == q.place.Keys && o in q.place
    && r.env == (q.env - {z})[y := o]
    && (forall d | d in q.place :: Root(r, d) == (if Root(q, d) == z then y else Root(q, d))
                                   && r.place[d] == (if d == o then InVariable(y) else q.place[d]))
  }

  lemma MoveKeeps(names: Names, w: World, y: Id, z: Id)
    requires Agree(names, w) && Check(Move(y, z), names).Some?
    ensures var r := Exec(Move(y, z), w); r.Some? && Agree(Check(Move(y, z), names).value, r.value)
  {
    hide Agree, Release, Replant, Under, Root, Pruned, Shifted;
    MoveParts(names, w, y, z);
    var o := w.env[z];
    var q := if y == z then w else Release(w, {InVariable(y)});
    var between := if y in names && y != z then names[y := names[y].(init := false)] else names;
    if y != z {
      ReleasePrunes(names, w, y);
      BetweenAgrees(names, w, y, q, between);
      OwnerSurvives(names, w, q, y, z);
    }
    QRanked(between, q);
    ShiftTree(between, q, y, z, o);
    if y != z { PrunedRoots(w, q, y); }
    MovedAgrees(names, between, q, y, z, o, Replant(q, z, o, InVariable(y), 0).(env := (q.env - {z})[y := o]));
  }

  lemma MoveParts(names: Names, w: World, y: Id, z: Id)
    requires Agree(names, w) && Check(Move(y, z), names).Some?
    ensures Live(w, z) && w.place[w.env[z]] == InVariable(z) && Movable(names, z) && !Borrower(names, y) && Ranked(w)
  {
    hide NamesRight, PlacesRight;
  }

  lemma QRanked(names: Names, q: World)
    requires Agree(names, q)
    ensures Ranked(q)
  {
  }

  lemma PrunedRoots(w: World, q: World, y: Id)
    requires Pruned(w, q, y)
    ensures q.env == w.env && Ranked(q) && forall d | d in q.place :: Root(q, d) != y
  {
  }

  lemma ShiftTree(names: Names, q: World, y: Id, z: Id, o: Obj)
    requires Agree(names, q) && Live(q, z) && o == q.env[z] && q.place[o] == InVariable(z)
    ensures Shifted(q, Replant(q, z, o, InVariable(y), 0).(env := (q.env - {z})[y := o]), y, z, o)
  {
    hide NamesRight, PlacesRight, OwnersRight, Doomed, Under, Root;
    ReplantKeeps(names, q, z, o, InVariable(y), 0);
    var p := Replant(q, z, o, InVariable(y), 0);
    var r := p.(env := (q.env - {z})[y := o]);
    forall d | d in q.place ensures Root(r, d) == if Root(q, d) == z then y else Root(q, d) {
      ReplantRoot(names, q, z, o, InVariable(y), 0, d);
      SameRoot(p, r, d);
    }
  }

  lemma BetweenNames(names: Names, w: World, y: Id, q: World, between: Names)
    requires Agree(names, w) && Pruned(w, q, y)
    requires between == if y in names then names[y := names[y].(init := false)] else names
    ensures NamesRight(between, q)
  {
    hide PlacesRight, OwnersRight, Root;
    RootsHere(w);
    forall n: Id | Live(q, n) ensures n in between && between[n].pointerOwner == Some(Root(q, q.env[n]))
    {
      assert Live(w, n);
    }
  }

  lemma BetweenOwners(names: Names, w: World, y: Id, q: World, between: Names)
    requires Agree(names, w) && Pruned(w, q, y)
    requires between == if y in names then names[y := names[y].(init := false)] else names
    ensures OwnersRight(between, q)
  {
    hide NamesRight, PlacesRight, Root, Ranked, Under, Doomed, Release;
    RootsHere(w);
    forall n | n in between && between[n].owner && between[n].init
      ensures Live(q, n) && q.place[q.env[n]] == InVariable(n)
    {
      assert Live(w, n) && Root(w, w.env[n]) == n;
    }
  }

  lemma BetweenPlaces(names: Names, w: World, y: Id, q: World, between: Names)
    requires Agree(names, w) && Pruned(w, q, y)
    requires between == if y in names then names[y := names[y].(init := false)] else names
    ensures PlacesRight(between, q)
  {
    hide NamesRight, OwnersRight, Root;
    RootsHere(w);
    forall d | d in q.place && q.place[d].InVariable?
      ensures var x := q.place[d].x; x in q.env && q.env[x] == d && x in between && between[x].owner && between[x].init
    {
      assert d in w.place && Root(w, d) == w.place[d].x;
    }
  }

  lemma BetweenAgrees(names: Names, w: World, y: Id, q: World, between: Names)
    requires Agree(names, w) && Pruned(w, q, y)
    requires between == if y in names then names[y := names[y].(init := false)] else names
    ensures Agree(between, q)
  {
    hide NamesRight, PlacesRight, OwnersRight, Root, Check;
    BetweenNames(names, w, y, q, between);
    BetweenOwners(names, w, y, q, between);
    BetweenPlaces(names, w, y, q, between);
  }

  lemma RootsHere(w: World)
    requires Ranked(w)
    ensures forall d | d in w.place && w.place[d].InVariable? :: Root(w, d) == w.place[d].x
  {
  }

  lemma MoveTable(names: Names, y: Id, z: Id)
    requires Movable(names, z) && !Borrower(names, y)
    ensures var after := Check(Move(y, z), names);
            && after.Some? && after.value.Keys == names.Keys + {y} && after.value[y] == Name(true, false, true, Some(y))
            && forall n | n in names && n != y ::
                 after.value[n] == Name(names[n].owner, names[n].borrower, names[n].init && n != z,
                                        if names[n].pointerOwner == Some(z) then Some(y) else names[n].pointerOwner)
  {
  }

  lemma AttachTable(names: Names, x: Id, f: nat, y: Id)
    requires Movable(names, y) && x in names && TargetOwner(names, x) != y
    ensures var after := Check(Attach(x, f, y), names);
            && after.Some? && after.value.Keys == names.Keys
            && forall n | n in names ::
                 after.value[n] == Name(names[n].owner, names[n].borrower, names[n].init && n != y,
                                        if names[n].pointerOwner == Some(y) then Some(TargetOwner(names, x))
                                        else names[n].pointerOwner)
  {
  }

  lemma MovedNames(names: Names, between: Names, q: World, y: Id, z: Id, o: Obj, r: World)
    requires Agree(between, q) && Movable(names, z) && !Borrower(names, y)
    requires between == if y in names && y != z then names[y := names[y].(init := false)] else names
    requires Live(q, z) && o == q.env[z] && q.place[o] == InVariable(z) && Shifted(q, r, y, z, o)
    requires y == z || (forall d | d in q.place :: Root(q, d) != y)
    ensures NamesRight(Check(Move(y, z), names).value, r)
  {
    hide PlacesRight, OwnersRight, Check, Root;
    MoveTable(names, y, z);
    RootsHere(q);
    var after := Check(Move(y, z), names).value;
    forall n: Id | Live(r, n) ensures n in after && after[n].pointerOwner == Some(Root(r, r.env[n])) {
      if n != y { assert Live(q, n); }
    }
  }

  lemma MovedOwners(names: Names, between: Names, q: World, y: Id, z: Id, o: Obj, r: World)
    requires Agree(between, q) && Movable(names, z) && !Borrower(names, y)
    requires between == if y in names && y != z then names[y := names[y].(init := false)] else names
    requires Live(q, z) && o == q.env[z] && q.place[o] == InVariable(z) && Shifted(q, r, y, z, o)
    requires y == z || (forall d | d in q.place :: Root(q, d) != y)
    ensures OwnersRight(Check(Move(y, z), names).value, r)
  {
    hide NamesRight, PlacesRight, Check, Root, Shifted;
    MoveTable(names, y, z);
    var after := Check(Move(y, z), names).value;
    forall n | n in after && after[n].owner ensures !after[n].borrower {
      if n != y { assert n in between && between[n].owner; }
    }
    forall n | n in after && after[n].owner && after[n].init ensures Live(r, n) && r.place[r.env[n]] == InVariable(n) {
      if n == y { MovedInto(q, r, y, z, o); } else { OwnerStays(between, q, r, y, z, o, n); }
    }
  }

  lemma MovedInto(q: World, r: World, y: Id, z: Id, o: Obj)
    requires Shifted(q, r, y, z, o)
    ensures Live(r, y) && r.place[r.env[y]] == InVariable(y)
  {
    hide Root;
  }

  lemma OwnerStays(between: Names, q: World, r: World, y: Id, z: Id, o: Obj, n: Id)
    requires Agree(between, q) && Shifted(q, r, y, z, o) && Live(q, z) && o == q.env[z] && q.place[o] == InVariable(z)
    requires n in between && between[n].owner && between[n].init && n != y && n != z
    ensures Live(r, n) && r.place[r.env[n]] == InVariable(n)
  {
    hide NamesRight, PlacesRight, Root;
  }

  lemma MovedPlaces(names: Names, between: Names, q: World, y: Id, z: Id, o: Obj, r: World)
    requires Agree(between, q) && Movable(names, z) && !Borrower(names, y)
    requires between == if y in names && y != z then names[y := names[y].(init := false)] else names
    requires Live(q, z) && o == q.env[z] && q.place[o] == InVariable(z) && Shifted(q, r, y, z, o)
    requires y == z || (forall d | d in q.place :: Root(q, d) != y)
    ensures PlacesRight(Check(Move(y, z), names).value, r)
  {
    hide NamesRight, OwnersRight, Check, Root;
    MoveTable(names, y, z);
    RootsHere(q);
    var after := Check(Move(y, z), names).value;
    forall d | d in r.place && r.place[d].InVariable?
      ensures var x := r.place[d].x; x in r.env && r.env[x] == d && x in after && after[x].owner && after[x].init
    {
      if d != o { assert d in q.place && q.place[d] == r.place[d] && Root(q, d) == q.place[d].x; }
    }
  }

  lemma MovedAgrees(names: Names, between: Names, q: World, y: Id, z: Id, o: Obj, r: World)
    requires Agree(between, q) && Movable(names, z) && !Borrower(names, y)
    requires between == if y in names && y != z then names[y := names[y].(init := false)] else names
    requires Live(q, z) && o == q.env[z] && q.place[o] == InVariable(z) && Shifted(q, r, y, z, o)
    requires y == z || (forall d | d in q.place :: Root(q, d) != y)
    ensures Agree(Check(Move(y, z), names).value, r)
  {
    hide NamesRight, PlacesRight, OwnersRight, Root, Check;
    MovedNames(names, between, q, y, z, o, r);
    MovedOwners(names, between, q, y, z, o, r);
    MovedPlaces(names, between, q, y, z, o, r);
  }

  /** The back-edge test is exact: an attachment is refused for a cycle if and only if the
      object it would be attached to is inside the tree being moved. */
  lemma CycleTestIsExact(names: Names, w: World, x: Id, y: Id)
    requires Agree(names, w) && Live(w, x) && Movable(names, y)
    ensures TargetOwner(names, x) == y <==> Under(w, w.env[x], w.env[y])
  {
    RootIsTop(names, w, w.env[x]);
    if Under(w, w.env[x], w.env[y]) { UnderHasRoot(w, w.env[x], w.env[y]); }
  }

  lemma AttachParts(names: Names, w: World, x: Id, f: nat, y: Id)
    requires Agree(names, w) && Check(Attach(x, f, y), names).Some? && Live(w, x)
    ensures Ranked(w) && Movable(names, y) && x in names && TargetOwner(names, x) != y && Live(w, y)
    ensures w.place[w.env[y]] == InVariable(y) && TargetOwner(names, x) == Root(w, w.env[x])
  {
  }

  /** `r` is `q` with the tree of variable `y`, whose root object is `o`, in field `f` of `p`. */
  ghost predicate Joined(q: World, r: World, y: Id, o: Obj, p: Obj, f: nat) {
    && Ranked(q) && Ranked(r) && r.place.Keys == q.place.Keys && o in q.place && p in q.place
    && r.env == q.env - {y}
    && (forall d | d in q.place :: Root(r, d) == (if Root(q, d) == y then Root(q, p) else Root(q, d))
                                   && r.place[d] == (if d == o then InField(p, f) else q.place[d]))
  }

  lemma JoinTree(names: Names, q: World, y: Id, o: Obj, p: Obj, f: nat)
    requires Agree(names, q) && Live(q, y) && o == q.env[y] && q.place[o] == InVariable(y)
    requires p in q.place && Root(q, p) != y
    ensures Joined(q, Replant(q, y, o, InField(p, f), q.rank[p] + 1).(env := q.env - {y}), y, o, p, f)
  {
    hide NamesRight, PlacesRight, OwnersRight, Doomed, Under, Root, Ranked;
    HasRank(q, p);
    var base := q.rank[p] + 1;
    ReplantKeeps(names, q, y, o, InField(p, f), base);
    var v := Replant(q, y, o, InField(p, f), base);
    var r := v.(env := q.env - {y});
    assert Ranked(r) by { FewerNames(v, r, y); }
    forall d | d in q.place ensures Root(r, d) == if Root(q, d) == y then Root(q, p) else Root(q, d) {
      ReplantRoot(names, q, y, o, InField(p, f), base, d);
      SameRoot(v, r, d);
    }
  }

  lemma HasRank(w: World, o: Obj)
    requires Ranked(w) && o in w.place
    ensures o in w.rank
  {
  }

  lemma FewerNames(v: World, r: World, y: Id)
    requires Ranked(v) && r == v.(env := v.env - {y})
    ensures Ranked(r)
  {
  }

  lemma AttachKeeps(names: Names, w: World, x: Id, f: nat, y: Id)
    requires Agree(names, w) && Check(Attach(x, f, y), names).Some? && Live(w, x)
    ensures var r := Exec(Attach(x, f, y), w); r.Some? && Agree(Check(Attach(x, f, y), names).value, r.value)
  {
    hide Check, Agree, Replant, Release, Root, Doomed, Under;
    AttachParts(names, w, x, f, y);
    var o, p := w.env[y], w.env[x];
    var q := Release(w, {InField(p, f)});
    ReleaseField(names, w, p, f);
    RootSurvives(w, o, p, f);
    ParentSurvives(w, p, p, f);
    Survivors(w, o, p, f);
    JoinTree(names, q, y, o, p, f);
    AttachedAgrees(names, q, x, f, y, o, p, Replant(q, y, o, InField(p, f), q.rank[p] + 1).(env := q.env - {y}));
  }

  lemma Survivors(w: World, o: Obj, p: Obj, f: nat)
    requires Ranked(w) && o in w.place && p in w.place
    requires !Doomed(w, o, {InField(p, f)}) && !Doomed(w, p, {InField(p, f)})
    ensures var q := Release(w, {InField(p, f)}); o in q.place && p in q.place && q.env == w.env
  {
  }

  lemma RootSurvives(w: World, o: Obj, p: Obj, f: nat)
    requires Ranked(w) && o in w.place && w.place[o].InVariable?
    ensures !Doomed(w, o, {InField(p, f)})
  {
  }

  /** An object is not part of one of its own fields. */
  lemma {:induction false} ParentSurvives(w: World, d: Obj, p: Obj, f: nat)
    requires Ranked(w) && d in w.place && p in w.place && w.rank[d] <= w.rank[p]
    ensures !Doomed(w, d, {InField(p, f)})
    decreases w.rank[d]
  {
    if w.place[d].InField? { ParentSurvives(w, w.place[d].parent, p, f); }
  }

  lemma ReleaseField(names: Names, w: World, p: Obj, f: nat)
    requires Agree(names, w)
    ensures var q := Release(w, {InField(p, f)});
            Agree(names, q) && forall d | d in q.place :: Root(q, d) == Root(w, d) && q.place[d] == w.place[d]
  {
    hide NamesRight, PlacesRight, OwnersRight, Doomed, Under, Root, Ranked, Release;
    var q := Release(w, {InField(p, f)});
    ReleaseKeeps(w, {InField(p, f)});
    FieldSurvivors(w, p, f);
    FieldNames(names, w, q);
    FieldOwners(names, w, q, p, f);
  }

  lemma FieldSurvivors(w: World, p: Obj, f: nat)
    requires Ranked(w) && Ranked(Release(w, {InField(p, f)}))
    ensures var q := Release(w, {InField(p, f)});
            && q.env == w.env
            && forall d | d in q.place :: d in w.place && Root(q, d) == Root(w, d) && q.place[d] == w.place[d]
  {
    hide Doomed, Root;
    var q := Release(w, {InField(p, f)});
    forall d | d in q.place ensures Root(q, d) == Root(w, d) { ReleaseRoot(w, {InField(p, f)}, d); }
  }

  lemma FieldNames(names: Names, w: World, q: World)
    requires Agree(names, w) && Ranked(q) && q.env == w.env
    requires forall d | d in q.place :: d in w.place && Root(q, d) == Root(w, d) && q.place[d] == w.place[d]
    ensures NamesRight(names, q) && PlacesRight(names, q)
  {
    hide OwnersRight, Ranked, Root;
  }

  lemma FieldOwners(names: Names, w: World, q: World, p: Obj, f: nat)
    requires Agree(names, w) && Ranked(q) && q == Release(w, {InField(p, f)})
    requires forall d | d in q.place :: d in w.place && Root(q, d) == Root(w, d) && q.place[d] == w.place[d]
    ensures OwnersRight(names, q)
  {
    hide NamesRight, PlacesRight, Ranked, Root, Doomed;
    forall n | n in names && names[n].owner && names[n].init ensures Live(q, n) && q.place[q.env[n]] == InVariable(n) {
      RootSurvives(w, w.env[n], p, f);
    }
  }

  lemma AttachedNames(names: Names, q: World, x: Id, f: nat, y: Id, o: Obj, p: Obj, r: World)
    requires Agree(names, q) && Movable(names, y) && Live(q, x) && p == q.env[x] && TargetOwner(names, x) != y
    requires Live(q, y) && o == q.env[y] && q.place[o] == InVariable(y) && x in names && Joined(q, r, y, o, p, f)
    ensures NamesRight(Check(Attach(x, f, y), names).value, r)
  {
    hide PlacesRight, OwnersRight, Check, Root;
    AttachTable(names, x, f, y);
    RootsHere(q);
    var after := Check(Attach(x, f, y), names).value;
    forall n: Id | Live(r, n) ensures n in after && after[n].pointerOwner == Some(Root(r, r.env[n]))
    {
      assert Live(q, n);
    }
  }

  lemma AttachedOwners(names: Names, q: World, x: Id, f: nat, y: Id, o: Obj, p: Obj, r: World)
    requires Agree(names, q) && Movable(names, y) && Live(q, x) && p == q.env[x] && TargetOwner(names, x) != y
    requires Live(q, y) && o == q.env[y] && q.place[o] == InVariable(y) && x in names && Joined(q, r, y, o, p, f)
    ensures OwnersRight(Check(Attach(x, f, y), names).value, r)
  {
    hide NamesRight, PlacesRight, Check, Root;
    AttachTable(names, x, f, y);
    RootsHere(q);
    var after := Check(Attach(x, f, y), names).value;
    forall n | n in after && after[n].owner && after[n].init ensures Live(r, n) && r.place[r.env[n]] == InVariable(n) {
      assert n != y && Live(q, n);
    }
  }

  lemma AttachedPlaces(names: Names, q: World, x: Id, f: nat, y: Id, o: Obj, p: Obj, r: World)
    requires Agree(names, q) && Movable(names, y) && Live(q, x) && p == q.env[x] && TargetOwner(names, x) != y
    requires Live(q, y) && o == q.env[y] && q.place[o] == InVariable(y) && x in names && Joined(q, r, y, o, p, f)
    ensures PlacesRight(Check(Attach(x, f, y), names).value, r)
  {
    hide NamesRight, OwnersRight, Check, Root;
    AttachTable(names, x, f, y);
    RootsHere(q);
    var after := Check(Attach(x, f, y), names).value;
    forall d | d in r.place && r.place[d].InVariable?
      ensures var z := r.place[d].x; z in r.env && r.env[z] == d && z in after && after[z].owner && after[z].init
    {
      assert d != o && d in q.place;
    }
  }

  lemma AttachedAgrees(names: Names, q: World, x: Id, f: nat, y: Id, o: Obj, p: Obj, r: World)
    requires Agree(names, q) && Movable(names, y) && Live(q, x) && p == q.env[x] && TargetOwner(names, x) != y
    requires Live(q, y) && o == q.env[y] && q.place[o] == InVariable(y) && x in names && Joined(q, r, y, o, p, f)
    ensures Agree(Check(Attach(x, f, y), names).value, r)
  {
    hide NamesRight, PlacesRight, OwnersRight, Root, Check;
    AttachedNames(names, q, x, f, y, o, p, r);
    AttachedOwners(names, q, x, f, y, o, p, r);
    AttachedPlaces(names, q, x, f, y, o, p, r);
  }

  // ---- Roles, by the operations alone ----

  predicate Assigns(op: Op, n: Id) { op == New(n) || (op.Borrow? && op.z == n) || (op.Move? && op.y == n) }

  predicate MovesOut(op: Op, n: Id) { (op.Move? && op.z == n) || (op.Attach? && op.y == n) }

  /** `n` was given a new object or one of another owner. */
  predicate Owns(ops: seq<Op>, n: Id) { exists k :: 0 <= k < |ops| && Assigns(ops[k], n) && !ops[k].Borrow? }

  predicate Borrows(ops: seq<Op>, n: Id) { exists k :: 0 <= k < |ops| && Assigns(ops[k], n) && ops[k].Borrow? }

  predicate Known(ops: seq<Op>, n: Id) { exists k :: 0 <= k < |ops| && Assigns(ops[k], n) }

  /** Assigned, and not moved out since. */
  predicate Readable(ops: seq<Op>, n: Id) {
    exists k :: 0 <= k < |ops| && Assigns(ops[k], n) && forall j | k < j < |ops| :: !MovesOut(ops[j], n)
  }

  /** The table after operations all of which are accepted. */
  function Table(ops: seq<Op>): Option<Names>
    decreases |ops|
  {
    if |ops| == 0 then Some(map[])
    else
      var before := Table(ops[..|ops| - 1]);
      if before.None? then None else Check(ops[|ops| - 1], before.value)
  }

  lemma RolesAfter(ops: seq<Op>, n: Id)
    requires |ops| > 0
    ensures var before, op := ops[..|ops| - 1], ops[|ops| - 1];
            && (Known(ops, n) <==> Known(before, n) || Assigns(op, n))
            && (Owns(ops, n) <==> Owns(before, n) || (Assigns(op, n) && !op.Borrow?))
            && (Borrows(ops, n) <==> Borrows(before, n) || (Assigns(op, n) && op.Borrow?))
            && (Readable(ops, n) <==> Assigns(op, n) || (Readable(before, n) && !MovesOut(op, n)))
  {
    hide Assigns, MovesOut;
    var last := |ops| - 1;
    var before := ops[..last];
    assert forall k | 0 <= k < last :: before[k] == ops[k];
    assert Known(before, n) ==> Known(ops, n);
    if Assigns(ops[last], n) {
      assert Known(ops, n) && Readable(ops, n);
    } else if Readable(before, n) && !MovesOut(ops[last], n) {
      var k :| 0 <= k < last && Assigns(before[k], n) && forall j | k < j < last :: !MovesOut(before[j], n);
      assert Assigns(ops[k], n);
    }
    if Readable(ops, n) && !Assigns(ops[last], n) {
      var k :| 0 <= k <= last && Assigns(ops[k], n) && forall j | k < j <= last :: !MovesOut(ops[j], n);
      assert Assigns(before[k], n);
    }
  }

  /** The table says of every name what the operations made of it. */
  lemma {:induction false} TableRoles(ops: seq<Op>, n: Id)
    requires Table(ops).Some?
    ensures var names := Table(ops).value;
            && (n in names <==> Known(ops, n))
            && (n in names ==>
                  && names[n].pointerOwner.Some? && (names[n].owner <==> Owns(ops, n))
                  && (names[n].borrower <==> Borrows(ops, n)) && (names[n].init <==> Readable(ops, n)))
    decreases |ops|
  {
    hide Known, Owns, Borrows, Readable, Check, Assigns, MovesOut;
    if |ops| == 0 {
      NoRoles(n);
      assert ops == [];
    } else {
      var before, op := ops[..|ops| - 1], ops[|ops| - 1];
      TableRoles(before, n);
      if op.Borrow? { TableRoles(before, op.y); }
      RolesKnown(before, n);
      RolesAfter(ops, n);
      EntryAfter(op, Table(before).value, n);
    }
  }

  lemma NoRoles(n: Id)
    ensures !Known([], n) && !Owns([], n) && !Borrows([], n) && !Readable([], n)
  {
  }

  /** What an accepted operation does to one entry. */
  lemma EntryAfter(op: Op, names: Names, n: Id)
    requires Check(op, names).Some?
    requires n in names ==> names[n].pointerOwner.Some?
    requires op.Borrow? && op.y in names ==> names[op.y].pointerOwner.Some?
    ensures var after := Check(op, names).value;
            && (n in after <==> n in names || Assigns(op, n))
            && (n in after ==>
                  && after[n].pointerOwner.Some?
                  && (after[n].owner <==> (n in names && names[n].owner) || (Assigns(op, n) && !op.Borrow?))
                  && (after[n].borrower <==> (n in names && names[n].borrower) || (Assigns(op, n) && op.Borrow?))
                  && (after[n].init <==> Assigns(op, n) || (n in names && names[n].init && !MovesOut(op, n))))
  {
    match op
    case Move(y, z) => MoveTable(names, y, z);
    case Attach(x, f, y) => AttachTable(names, x, f, y);
    case _ =>
  }

  /** Why the next operation is refused: new, for a borrower; a borrow, when there is nothing to
      read or an owner would become a borrower; a move, unless it is out of a readable owner, or
      when it is into a borrower; an attachment, unless it is of a readable owner, to a known
      name, of another owner. */
  predicate Unfit(ops: seq<Op>, op: Op, names: Names) {
    match op
    case New(y) => Borrows(ops, y)
    case Borrow(z, y) => !Readable(ops, y) || Owns(ops, z)
    case Move(y, z) => !Owns(ops, z) || !Readable(ops, z) || Borrows(ops, y)
    case Attach(x, _, y) =>
      !Owns(ops, y) || !Readable(ops, y) || !Known(ops, x) || (x in names && names[x].pointerOwner == Some(y))
  }

  lemma RefusedExactly(ops: seq<Op>, op: Op)
    requires Table(ops).Some?
    ensures Check(op, Table(ops).value).None? <==> Unfit(ops, op, Table(ops).value)
  {
    hide Owns, Borrows, Readable, Known;
    forall n ensures var names := Table(ops).value;
                     && (n in names <==> Known(ops, n))
                     && (n in names ==>
                           && names[n].pointerOwner.Some? && (names[n].owner <==> Owns(ops, n))
                           && (names[n].borrower <==> Borrows(ops, n)) && (names[n].init <==> Readable(ops, n)))
    {
      TableRoles(ops, n);
    }
    forall n ensures Owns(ops, n) || Borrows(ops, n) || Readable(ops, n) ==> Known(ops, n) { RolesKnown(ops, n); }
  }

  lemma RolesKnown(ops: seq<Op>, n: Id)
    ensures Owns(ops, n) || Borrows(ops, n) || Readable(ops, n) ==> Known(ops, n)
  {
  }

  // ---- Whole programs ----

  const NOWHERE := World(map[], map[], map[], 0)

  lemma {:induction false} StepKeeps(names: Names, w: World, op: Op)
    requires Agree(names, w) && Check(op, names).Some? && Exec(op, w).Some?
    ensures Agree(Check(op, names).value, Exec(op, w).value)
  {
    hide Check, Exec;
    match op
    case New(y) => NewKeeps(names, w, y);
    case Borrow(z, y) => BorrowKeeps(names, w, z, y);
    case Move(y, z) => MoveKeeps(names, w, y, z);
    case Attach(x, f, y) => AttachRuns(x, f, y, w); AttachKeeps(names, w, x, f, y);
  }

  lemma AttachRuns(x: Id, f: nat, y: Id, w: World)
    requires Ranked(w) && Exec(Attach(x, f, y), w).Some?
    ensures Live(w, x)
  {
  }

  /** The table and the world after straight-line code that is accepted and does not stop. */
  ghost function RunAll(ops: seq<Op>): (r: Option<(Names, World)>)
    ensures r.Some? ==> Agree(r.value.0, r.value.1)
    decreases |ops|
  {
    if |ops| == 0 then Some((map[], NOWHERE))
    else
      var before := RunAll(ops[..|ops| - 1]);
      var op := ops[|ops| - 1];
      if before.None? then None
      else
        var (names, w) := before.value;
        if Check(op, names).None? || Exec(op, w).None? then None
        else
          StepKeeps(names, w, op);
          Some((Check(op, names).value, Exec(op, w).value))
  }

  /** The table of such code is the one its operations give. */
  lemma {:induction false} RunsOnTable(ops: seq<Op>)
    requires RunAll(ops).Some?
    ensures Table(ops) == Some(RunAll(ops).value.0)
    decreases |ops|
  {
    hide Check, Exec, Agree;
    if |ops| > 0 { RunsOnTable(ops[..|ops| - 1]); }
  }

  /** Ownership stays a forest: along any accepted straight-line code every live name's owner
      is the variable that owns the root of its tree, containment never closes a cycle, a name
      can be moved out of exactly when it holds the root of a tree of its own, and the next
      attachment is refused exactly when it would close a cycle. */
  lemma OwnershipStaysAForest(ops: seq<Op>, x: Id, f: nat, y: Id)
    requires RunAll(ops).Some?
    ensures var (names, w) := RunAll(ops).value;
            && Table(ops) == Some(names) && Ranked(w)
            && (forall n | Live(w, n) :: n in names && names[n].pointerOwner == Some(Root(w, w.env[n])))
            && (Movable(names, y) <==> Live(w, y) && w.place[w.env[y]] == InVariable(y))
            && (Live(w, x) && Movable(names, y) ==>
                  (Check(Attach(x, f, y), names).None? <==> Under(w, w.env[x], w.env[y])))
  {
    var (names, w) := RunAll(ops).value;
    RunsOnTable(ops);
    if Live(w, x) && Movable(names, y) { CycleTestIsExact(names, w, x, y); }
  }

  // ---- In place ----

  /** The part of the checker's state that follows managed owners, updated in place. */
  class OwnerTable {
    var names: Names

    constructor ()
      ensures names == map[]
    {
      names := map[];
    }

    method TransferManagedAliases(previous: Id, next: Id)
      modifies this
      ensures names == Transfer(old(names), previous, next)
    {
      if previous != next {
        var todo := names.Keys;
        while todo != {}
          invariant todo <= names.Keys == old(names).Keys
          invariant forall n | n in names ::
                      names[n] == if n in todo then old(names)[n] else Transfer(old(names), previous, next)[n]
          decreases |todo|
        {
          var n :| n in todo;
          if names[n].pointerOwner == Some(previous) {
            names := names[n := names[n].(pointerOwner := Some(next))];
          }
          todo := todo - {n};
        }
      }
      assert names == Transfer(old(names), previous, next);
    }

    /** The argument of move() loses its value. */
    method MoveFrom(z: Id) returns (accepted: bool)
      modifies this
      ensures accepted == Movable(old(names), z)
      ensures names == if accepted then old(names)[z := old(names)[z].(init := false)] else old(names)
    {
      accepted := z in names && names[z].owner && names[z].init;
      if accepted { names := names[z := names[z].(init := false)]; }
    }

    /** False: something is reported. */
    method Visit(op: Op) returns (accepted: bool)
      modifies this
      ensures accepted == Check(op, old(names)).Some?
      ensures accepted ==> Some(names) == Check(op, old(names))
    {
      match op
      case New(y) =>
        accepted := !(y in names && names[y].borrower);
        if accepted { names := names[y := Name(true, false, true, Some(y))]; }
      case Borrow(z, y) =>
        accepted := y in names && names[y].init && !(z in names && names[z].owner && names[y].pointerOwner.Some?);
        if accepted {
          var was, borrowed := z in names && names[z].owner, z in names && names[z].borrower;
          names := names[z := Name(was, names[y].pointerOwner.Some? || borrowed, true, names[y].pointerOwner)];
        }
      case Move(y, z) =>
        var borrower := y in names && names[y].borrower;
        accepted := MoveFrom(z);
        accepted := accepted && !borrower;
        if accepted {
          TransferManagedAliases(z, y);
          names := names[y := Name(true, false, true, Some(y))];
        }
      case Attach(x, _, y) =>
        var known, targetOwner := x in names, TargetOwner(names, x);
        accepted := MoveFrom(y);
        accepted := accepted && known && targetOwner != y;
        if accepted { TransferManagedAliases(y, targetOwner); }
    }
  }
}
