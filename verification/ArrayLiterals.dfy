/** Array literals: their shape, and how a grouped literal fills flat storage. */
module ArrayLiterals {
  datatype Option<T> = None | Some(value: T)

  /** An element, or a nested literal. */
  datatype Literal = Leaf(value: int) | Group(items: seq<Literal>)

  type Shape = seq<nat>

  const SIZE_MAX: nat := 0xFFFF_FFFF_FFFF_FFFF

  // ---- Shape ----

  function ItemShape(l: Literal): Option<Shape>
    decreases l, 1
  {
    if l.Leaf? then Some([]) else InferShape(l.items)
  }

  /** InferArrayShape: all items have the shape of the first. */
  function InferShape(items: seq<Literal>): (r: Option<Shape>)
    ensures r.Some? ==> |r.value| > 0
    decreases items, 0
  {
    var child := ChildShape(items, |items|);
    if child.None? then None else Some([|items|] + child.value)
  }

  /** The shape the first `n` items share; [] before the first item. */
  function ChildShape(items: seq<Literal>, n: nat): Option<Shape>
    requires n <= |items|
    decreases items, 0, n
  {
    if n == 0 then Some([])
    else
      var before, last := ChildShape(items, n - 1), ItemShape(items[n - 1]);
      if before.None? || last.None? then None
      else if n == 1 || before == last then last
      else None
  }

  /** Rectangular with the given shape, level by level. */
  predicate Rectangular(items: seq<Literal>, shape: Shape)
    decreases |shape|
  {
    && |shape| > 0 && |items| == shape[0]
    && forall i | 0 <= i < |items| ::
         if |shape| == 1 then items[i].Leaf? else items[i].Group? && Rectangular(items[i].items, shape[1..])
  }

  /** Nothing can be seen below a dimension of length zero. */
  function Cut(shape: Shape): Shape {
    if |shape| == 0 then [] else if shape[0] == 0 then [0] else [shape[0]] + Cut(shape[1..])
  }

  lemma {:induction false} ChildShapeIs(items: seq<Literal>, n: nat)
    requires n <= |items|
    ensures ChildShape(items, n).Some? <==> forall i | 0 <= i < n ::
              ItemShape(items[i]).Some? && ItemShape(items[i]) == ItemShape(items[0])
    ensures n > 0 && ChildShape(items, n).Some? ==> ChildShape(items, n) == ItemShape(items[0])
    decreases n
  {
    if n > 0 { ChildShapeIs(items, n - 1); }
  }

  /** A shape that is inferred is right. */
  lemma {:induction false} InferredIsRectangular(items: seq<Literal>)
    ensures InferShape(items).Some? ==> Rectangular(items, InferShape(items).value)
    decreases items
  {
    ChildShapeIs(items, |items|);
    var r := InferShape(items);
    if r.Some? {
      var child := ChildShape(items, |items|).value;
      assert r.value[1..] == child;
      forall i | 0 <= i < |items|
        ensures if |r.value| == 1 then items[i].Leaf? else items[i].Group? && Rectangular(items[i].items, r.value[1..])
      {
        assert ItemShape(items[i]) == Some(child);
        if items[i].Group? { InferredIsRectangular(items[i].items); }
      }
    }
  }

  /** A rectangular literal has its shape inferred. */
  lemma {:induction false} RectangularIsInferred(items: seq<Literal>, shape: Shape)
    requires Rectangular(items, shape)
    ensures InferShape(items) == Some(Cut(shape))
    decreases |shape|
  {
    forall i | 0 <= i < |items| ensures ItemShape(items[i]) == Some(Cut(shape[1..])) {
      if items[i].Group? { RectangularIsInferred(items[i].items, shape[1..]); }
    }
    ChildShapeIs(items, |items|);
    if |items| > 0 {
      assert ChildShape(items, |items|) == ItemShape(items[0]) == Some(Cut(shape[1..]));
      assert InferShape(items).value == [shape[0]] + Cut(shape[1..]);
    } else {
      assert InferShape(items).value == [0] + [] == [0];
    }
  }

  lemma ShapeIffRectangular(items: seq<Literal>)
    ensures InferShape(items).Some? <==> exists shape :: Rectangular(items, shape)
  {
    InferredIsRectangular(items);
    if InferShape(items).Some? { assert Rectangular(items, InferShape(items).value); }
    forall shape | Rectangular(items, shape) ensures InferShape(items).Some? { RectangularIsInferred(items, shape); }
  }

  // ---- Flattening ----

  function Product(shape: Shape): nat { if |shape| == 0 then 1 else shape[0] * Product(shape[1..]) }

  function FlattenItem(l: Literal): seq<int>
    decreases l, 1
  {
    if l.Leaf? then [l.value] else Flatten(l.items, |l.items|)
  }

  /** The leaves of the first `n` items, in order. */
  function Flatten(items: seq<Literal>, n: nat): seq<int>
    requires n <= |items|
    decreases items, 0, n
  {
    if n == 0 then [] else Flatten(items, n - 1) + FlattenItem(items[n - 1])
  }

  /** The leaf at an index path. */
  function At(items: seq<Literal>, shape: Shape, path: seq<nat>): int
    requires Rectangular(items, shape) && Fits(path, shape)
    decreases |shape|
  {
    if |shape| == 1 then items[path[0]].value else At(items[path[0]].items, shape[1..], path[1..])
  }

  predicate Fits(path: seq<nat>, shape: Shape) {
    |path| == |shape| && forall i | 0 <= i < |path| :: path[i] < shape[i]
  }

  /** Row-major position. */
  function Offset(path: seq<nat>, shape: Shape): nat
    requires |path| == |shape|
  {
    if |path| == 0 then 0 else path[0] * Product(shape[1..]) + Offset(path[1..], shape[1..])
  }

  lemma {:induction false} OffsetInRange(path: seq<nat>, shape: Shape)
    requires Fits(path, shape)
    ensures Offset(path, shape) < Product(shape)
  {
    if |path| > 0 {
      OffsetInRange(path[1..], shape[1..]);
      var block := Product(shape[1..]);
      assert (path[0] + 1) * block <= shape[0] * block by { MulMonotone(path[0] + 1, shape[0], block); }
      assert (path[0] + 1) * block == path[0] * block + block;
    }
  }

  lemma MulMonotone(a: nat, b: nat, c: nat)
    requires a <= b
    ensures a * c <= b * c
  {
  }

  /** Items of one size lie side by side. */
  lemma {:induction false} FlattenSize(items: seq<Literal>, n: nat, block: nat)
    requires n <= |items| && forall i | 0 <= i < n :: |FlattenItem(items[i])| == block
    ensures |Flatten(items, n)| == n * block
    decreases n
  {
    if n > 0 {
      FlattenSize(items, n - 1, block);
      assert (n - 1) * block + block == n * block;
    }
  }

  lemma {:induction false} FlattenAt(items: seq<Literal>, n: nat, block: nat, i: nat, j: nat)
    requires n <= |items| && forall k | 0 <= k < n :: |FlattenItem(items[k])| == block
    requires i < n && j < block
    ensures i * block + j < |Flatten(items, n)| && Flatten(items, n)[i * block + j] == FlattenItem(items[i])[j]
    decreases n
  {
    FlattenSize(items, n, block);
    FlattenSize(items, n - 1, block);
    MulMonotone(i + 1, n, block);
    assert (i + 1) * block == i * block + block;
    if i < n - 1 { FlattenAt(items, n - 1, block, i, j); }
  }

  /** As many leaves as the product of the shape. */
  lemma {:induction false} LeafCount(items: seq<Literal>, shape: Shape)
    requires Rectangular(items, shape)
    ensures |Flatten(items, |items|)| == Product(shape)
    decreases |shape|
  {
    forall i | 0 <= i < |items| ensures |FlattenItem(items[i])| == Product(shape[1..]) {
      if items[i].Group? { LeafCount(items[i].items, shape[1..]); }
    }
    FlattenSize(items, |items|, Product(shape[1..]));
  }

  /** Flattening puts the leaf at an index path at its row-major position. */
  lemma {:induction false} FlattenIsRowMajor(items: seq<Literal>, shape: Shape, path: seq<nat>)
    requires Rectangular(items, shape) && Fits(path, shape)
    ensures |Flatten(items, |items|)| == Product(shape) && Offset(path, shape) < Product(shape)
    ensures Flatten(items, |items|)[Offset(path, shape)] == At(items, shape, path)
    decreases |shape|
  {
    LeafCount(items, shape);
    OffsetInRange(path, shape);
    var block := Product(shape[1..]);
    forall i | 0 <= i < |items| ensures |FlattenItem(items[i])| == block {
      if items[i].Group? { LeafCount(items[i].items, shape[1..]); }
    }
    var i, j := path[0], Offset(path[1..], shape[1..]);
    OffsetInRange(path[1..], shape[1..]);
    FlattenAt(items, |items|, block, i, j);
    if |shape| > 1 { FlattenIsRowMajor(items[i].items, shape[1..], path[1..]); }
  }

  // ---- Storage ----

  /** Every product of leading dimensions fits a machine size of 64 bits. */
  predicate NoOverflow(shape: Shape) {
    forall n | 0 <= n <= |shape| :: Product(shape[..n]) < 0x1_0000_0000_0000_0000
  }

  lemma {:induction false} ProductSnoc(shape: Shape, d: nat)
    ensures Product(shape + [d]) == Product(shape) * d
  {
    if |shape| > 0 {
      assert (shape + [d])[1..] == shape[1..] + [d];
      ProductSnoc(shape[1..], d);
      assert shape[0] * (Product(shape[1..]) * d) == shape[0] * Product(shape[1..]) * d;
    } else {
      assert (shape + [d])[1..] == [];
    }
  }

  lemma DivisionTestsOverflow(count: nat, d: nat)
    requires d != 0
    ensures count > SIZE_MAX / d <==> count * d > SIZE_MAX
  {
    var q := SIZE_MAX / d;
    assert q * d <= SIZE_MAX < q * d + d;
    if count > q {
      MulMonotone(q + 1, count, d);
      assert (q + 1) * d == q * d + d;
    } else {
      MulMonotone(count, q, d);
    }
  }

  /** InferArrayStorageShape: a grouped literal for a flat array is stored as one dimension,
      of the product of its shape; None when the literal is ragged or the size overflows. */
  method InferArrayStorageShape(items: seq<Literal>, declaredRank: nat) returns (r: Option<Shape>)
    ensures InferShape(items).None? ==> r == None
    ensures InferShape(items).Some? && (declaredRank != 1 || |InferShape(items).value| <= 1) ==> r == InferShape(items)
    ensures InferShape(items).Some? && declaredRank == 1 && |InferShape(items).value| > 1 ==>
              var shape := InferShape(items).value;
              r == if NoOverflow(shape) then Some([Product(shape)]) else None
  {
    var inferred := InferArrayShape(items);
    if inferred.None? || declaredRank != 1 || |inferred.value| <= 1 { return inferred; }
    var shape := inferred.value;
    var count, i := 1, 0;
    while i < |shape|
      invariant 0 <= i <= |shape| && count == Product(shape[..i])
      invariant forall n | 0 <= n <= i :: Product(shape[..n]) <= SIZE_MAX
    {
      var dimension := shape[i];
      assert shape[..i + 1] == shape[..i] + [dimension];
      ProductSnoc(shape[..i], dimension);
      if dimension != 0 {
        DivisionTestsOverflow(count, dimension);
        if count > SIZE_MAX / dimension { return None; }
      }
      count := count * dimension;
      i := i + 1;
    }
    assert shape[..|shape|] == shape;
    r := Some([count]);
  }

  /** InferArrayShape as the loop it is. */
  method InferArrayShape(items: seq<Literal>) returns (r: Option<Shape>)
    ensures r == InferShape(items)
    decreases items
  {
    var childShape: Shape := [];
    var i := 0;
    while i < |items|
      invariant 0 <= i <= |items| && ChildShape(items, i) == Some(childShape)
    {
      var currentShape: Shape := [];
      if items[i].Group? {
        var nested := InferArrayShape(items[i].items);
        if nested.None? {
          ChildShapeIs(items, |items|);
          return None;
        }
        currentShape := nested.value;
      }
      if i == 0 { childShape := currentShape; }
      else if childShape != currentShape {
        ChildShapeIs(items, i);
        ChildShapeIs(items, |items|);
        return None;
      }
      i := i + 1;
    }
    r := Some([|items|] + childShape);
  }

  /** A flat array is filled by appending the leaves one by one. */
  method FlattenInto(items: seq<Literal>, storage: seq<int>) returns (filled: seq<int>)
    ensures filled == storage + Flatten(items, |items|)
    decreases items
  {
    filled := storage;
    var i := 0;
    while i < |items|
      invariant 0 <= i <= |items| && filled == storage + Flatten(items, i)
    {
      match items[i] {
        case Leaf(v) => filled := filled + [v];
        case Group(nested) => filled := FlattenInto(nested, filled);
      }
      i := i + 1;
    }
  }
}
