/** Polymorphism over conditionals: a shape record dispatched on a type
    string, and the replacement, one variant per shape with validating
    constructors and its own area formula.

    The Java shapes keep their dimensions in `final` fields, so after
    construction they are immutable values: they are modelled as datatype
    values, and a constructor that throws IllegalArgumentException as a
    function that returns a Failure. Doubles are modelled as reals. */
module DesignRules {
  import opened Wrappers

  /** Math.PI, written out in decimal; the proofs use only that it is
      positive. */
  const PI: real := 3.141592653589793

  // ---------------------------------------------------------------------
  // The conditional version
  // ---------------------------------------------------------------------

  /** ShapeBad: one record carrying a radius and a side, whichever the shape
      needs. */
  datatype ShapeBad = ShapeBad(radius: real, side: real)
  {
    /** The area for the shape named by a case-sensitive type string; 0 for
        any other string. */
    function Area(shapeType: string): real
    {
      if shapeType == "circle" then PI * radius * radius
      else if shapeType == "square" then side * side
      else 0.0
    }
  }

  // ---------------------------------------------------------------------
  // The polymorphic version
  // ---------------------------------------------------------------------

  datatype IllegalArgument = IllegalArgument(message: string)

  /** The implementations of IShape, each with only the fields it needs. */
  datatype Shape = Circle(radius: real) | Square(side: real) | Triangle(base: real, height: real)
  {
    /** What the validating constructors guarantee of every instance. */
    predicate Valid()
    {
      match this
      case Circle(r) => r > 0.0
      case Square(s) => s > 0.0
      case Triangle(b, h) => b > 0.0 && h > 0.0
    }

    /** IShape.area(); a constructed shape has a strictly positive area. */
    function Area(): (area: real)
      ensures Valid() ==> area > 0.0
    {
      match this
      case Circle(r) => Times(Times(PI, r), r)
      case Square(s) => Times(s, s)
      case Triangle(b, h) => Times(Times(0.5, b), h)
    }
  }

  /** Real multiplication. The area formulas are written with it, grouped
      left to right as Java evaluates them (`PI * r * r` is `(PI * r) * r`),
      so that the sign of each product is stated once, here; the solver does
      not reliably conclude by itself that `r * r` is positive. */
  function Times(x: real, y: real): (product: real)
    ensures x > 0.0 && y > 0.0 ==> product > 0.0
  {
    x * y
  }

  /** new Circle(radius) */
  function NewCircle(radius: real): (r: Result<Shape, IllegalArgument>)
    ensures r.Success? <==> radius > 0.0
    ensures r.Success? ==> r.value.Valid() && r.value == Circle(radius)
    ensures r.Success? ==> r.value.Area() == PI * radius * radius
    ensures r.Failure? ==> r.error.message == "Radius must be positive"
  {
    if radius <= 0.0 then Failure(IllegalArgument("Radius must be positive"))
    else Success(Circle(radius))
  }

  /** new Square(side) */
  function NewSquare(side: real): (r: Result<Shape, IllegalArgument>)
    ensures r.Success? <==> side > 0.0
    ensures r.Success? ==> r.value.Valid() && r.value == Square(side)
    ensures r.Success? ==> r.value.Area() == side * side
    ensures r.Failure? ==> r.error.message == "Side must be positive"
  {
    if side <= 0.0 then Failure(IllegalArgument("Side must be positive"))
    else Success(Square(side))
  }

  /** new Triangle(base, height) */
  function NewTriangle(base: real, height: real): (r: Result<Shape, IllegalArgument>)
    ensures r.Success? <==> base > 0.0 && height > 0.0
    ensures r.Success? ==> r.value.Valid() && r.value == Triangle(base, height)
    ensures r.Success? ==> r.value.Area() == base * height / 2.0
    ensures r.Failure? ==> r.error.message == "Base and height must be positive"
  {
    if base <= 0.0 || height <= 0.0 then Failure(IllegalArgument("Base and height must be positive"))
    else Success(Triangle(base, height))
  }

  /** The two designs agree wherever the conditional one names a real shape. */
  lemma ShapeBadAgreesWithVariants(radius: real, side: real)
    ensures ShapeBad(radius, side).Area("circle") == Circle(radius).Area()
    ensures ShapeBad(radius, side).Area("square") == Square(side).Area()
  {
  }

  /** Any other type string, including a misspelling or another case,
      silently gives 0. */
  lemma ShapeBadUnknownType(shape: ShapeBad, shapeType: string)
    requires shapeType != "circle" && shapeType != "square"
    ensures shape.Area(shapeType) == 0.0
  {
  }

  lemma ShapeBadTypos(shape: ShapeBad)
    ensures shape.Area("Circle") == 0.0
    ensures shape.Area("cirlce") == 0.0
    ensures shape.Area("triangle") == 0.0
  {
  }

  /** The usage example: a circle of radius 5, a square of side 10 and a
      triangle of base 4 and height 6. */
  lemma UsageExample()
    ensures NewCircle(5.0).Success? && NewCircle(5.0).value.Area() == 25.0 * PI
    ensures NewSquare(10.0).Success? && NewSquare(10.0).value.Area() == 100.0
    ensures NewTriangle(4.0, 6.0).Success? && NewTriangle(4.0, 6.0).value.Area() == 12.0
  {
  }
}
