/** The open/closed principle example: products filtered by size and colour, first by one
    dedicated filter per criterion, then by one generic filter over composable specifications. */
module OpenClose {

  datatype Color = Red | Green | Blue

  datatype Size = Small | Medium | Large | XLarge

  datatype Product = Product(name: string, color: Color, size: Size)

  // ---------------------------------------------------------------------------
  // ProductFilter: one loop per criterion

  function FilterBySize(products: seq<Product>, size: Size): (r: seq<Product>)
    ensures forall p :: p in r ==> p in products && p.size == size
  {
    if products == [] then []
    else (if products[0].size == size then [products[0]] else []) + FilterBySize(products[1..], size)
  }

  function FilterByColor(products: seq<Product>, color: Color): (r: seq<Product>)
    ensures forall p :: p in r ==> p in products && p.color == color
  {
    if products == [] then []
    else (if products[0].color == color then [products[0]] else []) + FilterByColor(products[1..], color)
  }

  function FilterBySizeAndColor(products: seq<Product>, size: Size, color: Color): (r: seq<Product>)
    ensures forall p :: p in r ==> p in products && p.color == color && p.size == size
  {
    if products == [] then []
    else
      var p := products[0];
      (if p.color == color && p.size == size then [p] else []) + FilterBySizeAndColor(products[1..], size, color)
  }

  // ---------------------------------------------------------------------------
  // Specifications and BetterFilter

  /** The specifications of the example: `ColorSpecification`, `SizeSpecification` and
      `AndSpecification` over them. */
  datatype Specification =
    | ColorSpecification(color: Color)
    | SizeSpecification(size: Size)
    | AndSpecification(first: Specification, second: Specification)

  /** `IsSatisfied`; an `AndSpecification` asks its first component, then its second. */
  predicate IsSatisfied(spec: Specification, p: Product) {
    match spec
    case ColorSpecification(c) => p.color == c
    case SizeSpecification(s) => p.size == s
    case AndSpecification(a, b) => IsSatisfied(a, p) && IsSatisfied(b, p)
  }

  /** `BetterFilter.Filter`: the items satisfying the specification, in input order. */
  function Filter(items: seq<Product>, spec: Specification): (r: seq<Product>)
    ensures |r| <= |items|
    ensures forall p :: p in r ==> p in items && IsSatisfied(spec, p)
  {
    if items == [] then []
    else (if IsSatisfied(spec, items[0]) then [items[0]] else []) + Filter(items[1..], spec)
  }

  /** `idx` lists positions of `items` in increasing order, and `r` holds the items there. */
  ghost predicate Picks(items: seq<Product>, r: seq<Product>, idx: seq<nat>) {
    && |idx| == |r|
    && (forall k :: 0 <= k < |idx| ==> idx[k] < |items| && r[k] == items[idx[k]])
    && (forall k, l :: 0 <= k < l < |idx| ==> idx[k] < idx[l])
  }

  /** `idx` holds exactly the positions whose item satisfies `spec`. */
  ghost predicate ExactlySatisfying(items: seq<Product>, spec: Specification, idx: seq<nat>) {
    forall i :: 0 <= i < |items| ==> (IsSatisfied(spec, items[i]) <==> i in idx)
  }

  /** Every position moved one place to the right. */
  function Shift(idx: seq<nat>): (r: seq<nat>)
    ensures |r| == |idx|
    ensures forall k :: 0 <= k < |r| ==> r[k] == idx[k] + 1
  {
    if idx == [] then [] else [idx[0] + 1] + Shift(idx[1..])
  }

  lemma ShiftMembership(idx: seq<nat>, i: nat)
    ensures i + 1 in Shift(idx) <==> i in idx
    ensures 0 !in Shift(idx)
  {
    var sh := Shift(idx);
    if i in idx {
      var k :| 0 <= k < |idx| && idx[k] == i;
      assert sh[k] == i + 1;
    }
  }

  /** Positions that pick `r` from the tail, shifted, pick `r` from the whole list, and
      position 0 may be put in front of them. */
  lemma PicksCons(items: seq<Product>, r: seq<Product>, tail: seq<nat>, keep: bool)
    requires items != [] && Picks(items[1..], r, tail)
    ensures Picks(items, (if keep then [items[0]] else []) + r, (if keep then [0] else []) + Shift(tail))
  {
    PicksShift(items, r, tail);
    if keep {
      PicksFront(items, r, Shift(tail));
    } else {
      assert [] + r == r && [] + Shift(tail) == Shift(tail);
    }
  }

  lemma PicksFront(items: seq<Product>, r: seq<Product>, idx: seq<nat>)
    requires items != [] && Picks(items, r, idx)
    requires forall k :: 0 <= k < |idx| ==> idx[k] > 0
    ensures Picks(items, [items[0]] + r, [0] + idx)
  {
    var rr, ii := [items[0]] + r, [0] + idx;
    forall k | 1 <= k < |ii|
      ensures ii[k] < |items| && rr[k] == items[ii[k]]
    {
      assert ii[k] == idx[k - 1] && rr[k] == r[k - 1];
    }
    forall k, l | 0 <= k < l < |ii|
      ensures ii[k] < ii[l]
    {
      assert ii[l] == idx[l - 1];
      if k > 0 { assert ii[k] == idx[k - 1]; }
    }
  }

  lemma PicksShift(items: seq<Product>, r: seq<Product>, tail: seq<nat>)
    requires items != [] && Picks(items[1..], r, tail)
    ensures Picks(items, r, Shift(tail))
  {
    var sh := Shift(tail);
    forall k | 0 <= k < |sh|
      ensures sh[k] < |items| && r[k] == items[sh[k]]
    {
      assert r[k] == items[1..][tail[k]];
    }
  }

  lemma ExactlyCons(items: seq<Product>, spec: Specification, tail: seq<nat>)
    requires items != [] && ExactlySatisfying(items[1..], spec, tail)
    ensures ExactlySatisfying(items, spec, (if IsSatisfied(spec, items[0]) then [0] else []) + Shift(tail))
  {
    var idx := (if IsSatisfied(spec, items[0]) then [0] else []) + Shift(tail);
    forall i | 0 <= i < |items|
      ensures IsSatisfied(spec, items[i]) <==> i in idx
    {
      ShiftMembership(tail, if i > 0 then i - 1 else 0);
      if i > 0 {
        assert items[i] == items[1..][i - 1];
      }
    }
  }

  /** The filter's result is an order-preserving subsequence of the items that contains
      exactly those satisfying the specification; `idx` gives the positions it took. */
  lemma {:induction false} FilterSelectsExactly(items: seq<Product>, spec: Specification) returns (idx: seq<nat>)
    ensures Picks(items, Filter(items, spec), idx)
    ensures ExactlySatisfying(items, spec, idx)
  {
    if items == [] {
      return [];
    }
    var tail := FilterSelectsExactly(items[1..], spec);
    var keep := IsSatisfied(spec, items[0]);
    PicksCons(items, Filter(items[1..], spec), tail, keep);
    ExactlyCons(items, spec, tail);
    idx := (if keep then [0] else []) + Shift(tail);
  }

  /** Filtering by a conjunction is filtering by one component, then by the other. */
  lemma {:induction false} AndIsSuccessiveFilters(items: seq<Product>, a: Specification, b: Specification)
    ensures Filter(items, AndSpecification(a, b)) == Filter(Filter(items, a), b)
  {
    if items != [] {
      var head, rest := items[0], items[1..];
      AndIsSuccessiveFilters(rest, a, b);
      var fa := Filter(items, a);
      if IsSatisfied(a, head) {
        assert fa == [head] + Filter(rest, a);
        assert fa[0] == head && fa[1..] == Filter(rest, a);
      } else {
        assert fa == Filter(rest, a);
      }
    }
  }

  /** The dedicated loops agree with the generic filter over the matching specification. */
  lemma {:induction false} FilterBySizeIsSpecification(products: seq<Product>, size: Size)
    ensures FilterBySize(products, size) == Filter(products, SizeSpecification(size))
  {
    if products != [] {
      FilterBySizeIsSpecification(products[1..], size);
    }
  }

  lemma {:induction false} FilterByColorIsSpecification(products: seq<Product>, color: Color)
    ensures FilterByColor(products, color) == Filter(products, ColorSpecification(color))
  {
    if products != [] {
      FilterByColorIsSpecification(products[1..], color);
    }
  }

  lemma {:induction false} FilterBySizeAndColorIsSpecification(products: seq<Product>, size: Size, color: Color)
    ensures FilterBySizeAndColor(products, size, color)
         == Filter(products, AndSpecification(ColorSpecification(color), SizeSpecification(size)))
  {
    if products != [] {
      var p := products[0];
      assert IsSatisfied(AndSpecification(ColorSpecification(color), SizeSpecification(size)), p)
        == (p.color == color && p.size == size);
      FilterBySizeAndColorIsSpecification(products[1..], size, color);
    }
  }

  /** The conjunction is commutative as a filter: the order of the components does not
      change which products are kept. */
  lemma {:induction false} AndCommutes(items: seq<Product>, a: Specification, b: Specification)
    ensures Filter(items, AndSpecification(a, b)) == Filter(items, AndSpecification(b, a))
  {
    if items != [] {
      AndCommutes(items[1..], a, b);
    }
  }

  // ---------------------------------------------------------------------------
  // The demo's data

  const Apple := Product("Apple", Green, Small)
  const Tree := Product("Tree", Green, Large)
  const House := Product("House", Blue, Large)
  const Products := [Apple, Tree, House]

  /** Green yields the apple, then the tree, by either filter; large and blue yields
      only the house. */
  lemma DemoResults()
    ensures FilterByColor(Products, Green) == [Apple, Tree]
    ensures Filter(Products, ColorSpecification(Green)) == [Apple, Tree]
    ensures Filter(Products, AndSpecification(ColorSpecification(Blue), SizeSpecification(Large))) == [House]
  {
    assert Products[1..] == [Tree, House] && [Tree, House][1..] == [House] && [House][1..] == [];
    var green := ColorSpecification(Green);
    assert Filter([House], green) == [];
    assert Filter([Tree, House], green) == [Tree];
    assert Filter(Products, green) == [Apple, Tree];
    var largeBlue := AndSpecification(ColorSpecification(Blue), SizeSpecification(Large));
    assert Filter([House], largeBlue) == [House];
    assert Filter([Tree, House], largeBlue) == [House];
    FilterByColorIsSpecification(Products, Green);
  }
}
