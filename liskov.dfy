/** The Liskov substitution example: a rectangle with independent width and height, and a
    square that overrides both setters to keep the sides equal. Code written against the
    rectangle's setters then computes the wrong area when handed a square. */
module Liskov {
  import opened Int32
  import opened Text

  /** `Rectangle` and its subclass `Square` as one class: `isSquare` says which setter
      overrides a given object runs. */
  class Rectangle {
    var width: int32
    var height: int32
    const isSquare: bool

    /** A square's sides are equal. */
    ghost predicate Valid()
      reads this
    {
      isSquare ==> width == height
    }

    /** `new Rectangle()`: both sides zero. */
    constructor Default()
      ensures width == 0 && height == 0 && !isSquare && Valid()
    {
      width, height, isSquare := 0, 0, false;
    }

    /** `new Rectangle(width, height)`. */
    constructor Sized(width: int32, height: int32)
      ensures this.width == width && this.height == height && !isSquare && Valid()
    {
      this.width, this.height, isSquare := width, height, false;
    }

    /** `new Square()`: the base's parameterless constructor, so both sides zero. */
    constructor Square()
      ensures width == 0 && height == 0 && isSquare && Valid()
    {
      width, height, isSquare := 0, 0, true;
    }

    /** The `Width` setter: a rectangle changes its width only, a square both sides. */
    method SetWidth(value: int32)
      requires Valid()
      modifies this
      ensures width == value && Valid()
      ensures height == if isSquare then value else old(height)
    {
      width := value;
      if isSquare {
        height := value;
      }
    }

    /** The `Height` setter: a rectangle changes its height only, a square both sides. */
    method SetHeight(value: int32)
      requires Valid()
      modifies this
      ensures height == value && Valid()
      ensures width == if isSquare then value else old(width)
    {
      height := value;
      if isSquare {
        width := value;
      }
    }

    /** `ToString`. */
    function ToString(): string
      reads this
    {
      RectangleText(width, height)
    }
  }

  /** `Program.Area`: `Width * Height` in unchecked 32-bit arithmetic. */
  function Area(r: Rectangle): (a: int32)
    reads r
    ensures (a as int - r.width as int * r.height as int) % MODULUS == 0
  {
    Wrap(r.width as int * r.height as int)
  }

  /** A valid square's area is its side squared. */
  lemma SquareArea(r: Rectangle)
    requires r.Valid() && r.isSquare
    ensures Area(r) == Wrap(r.width as int * r.width as int)
  {
  }

  /** `"Width: {Width}, Height: {Height}"`. */
  function RectangleText(width: int32, height: int32): string {
    "Width: " + IntToString(width as int) + ", Height: " + IntToString(height as int)
  }

  /** The text determines both sides: the first comma ends the width's digits. */
  lemma RectangleTextDistinguishes(w1: int32, h1: int32, w2: int32, h2: int32)
    requires RectangleText(w1, h1) == RectangleText(w2, h2)
    ensures w1 == w2 && h1 == h2
  {
    IntToStringChars(w1 as int, ',');
    IntToStringChars(w2 as int, ',');
    assert ", Height: "[0] == ',';
    FieldsDistinguish("Width: ", IntToString(w1 as int), ", Height: ", IntToString(h1 as int),
                      IntToString(w2 as int), IntToString(h2 as int));
    IntToStringInjective(w1 as int, w2 as int);
    IntToStringInjective(h1 as int, h2 as int);
  }

  /** What a client of `Rectangle` expects: set the width to `a`, then the height to `b`,
      and the area is `a*b`. It gets that from a rectangle, but `b*b` from a square. */
  method SetBothThenArea(r: Rectangle, a: int32, b: int32) returns (area: int32)
    requires r.Valid()
    modifies r
    ensures r.Valid() && r.height == b
    ensures area == if r.isSquare then Wrap(b as int * b as int) else Wrap(a as int * b as int)
  {
    r.SetWidth(a);
    r.SetHeight(b);
    area := Area(r);
  }

  /** The substitution failure: the same client code gives `a*b` over a rectangle and `b*b`
      over a square. The two differ whenever `a*b` and `b*b` differ modulo 2^32, as with
      `a = 2` and `b = 3`. */
  method SubstitutionFails(a: int32, b: int32) returns (rectangleArea: int32, squareArea: int32)
    ensures rectangleArea == Wrap(a as int * b as int)
    ensures squareArea == Wrap(b as int * b as int)
  {
    var rectangle := new Rectangle.Default();
    rectangleArea := SetBothThenArea(rectangle, a, b);
    var square := new Rectangle.Square();
    squareArea := SetBothThenArea(square, a, b);
  }

  /** `Main`: a 2 by 3 rectangle has area 6; a square given width 4 has sides 4 and area 16. */
  method Demo() returns (rectangleArea: int32, squareWidth: int32, squareHeight: int32, squareArea: int32)
    ensures rectangleArea == 6
    ensures squareWidth == 4 && squareHeight == 4 && squareArea == 16
  {
    var rectangle := new Rectangle.Sized(2, 3);
    rectangleArea := Area(rectangle);
    var square := new Rectangle.Square();
    square.SetWidth(4);
    squareWidth, squareHeight := square.width, square.height;
    squareArea := Area(square);
  }
}
