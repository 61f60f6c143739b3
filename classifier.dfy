/**
 The fixed decision tree that maps the features of one contour to a shape
 label, or to no label at all. The vertex count of the approximated polygon
 picks the branch; the bounding-box aspect ratio separates squares from
 rectangles, and the circularity decides whether a many-sided polygon is a
 circle.
 */
module Classifier {
  import opened Features
  import opened RealArith

  /** The four labels of the count table, under the names the detector uses. */
  datatype Shape = Triangulo | Cuadrado | Rectangulo | Circulo

  datatype Option<T> = None | Some(value: T)

  /** Inclusive band of width/height ratios that make a quadrilateral a square. */
  const SquareLow: real := 0.95
  const SquareHigh: real := 1.05

  /** A circle needs at least this many vertices and circularity strictly above the floor. */
  const CircleMinVertices: nat := 8
  const CircleMinCircularity: real := 0.85

  /** Width over height of the bounding box, as a real quotient. */
  function AspectRatio(c: Contour): (ratio: real)
  {
    c.bw as real / c.bh as real
  }

  /**
   The decision tree: three vertices make a triangle; four make a square when
   the aspect ratio lies in the square band and a rectangle otherwise; any
   other count is a circle only with at least eight vertices and circularity
   above 0.85, and is rejected otherwise.
   */
  function Classify(c: Contour): (r: Option<Shape>)
    ensures r == Some(Triangulo) <==> c.vertices == 3
    ensures c.vertices == 4 ==> r.Some? && (r.value == Cuadrado || r.value == Rectangulo)
    ensures r == Some(Cuadrado) <==> c.vertices == 4 && 95 * c.bh <= 100 * c.bw <= 105 * c.bh
    ensures r == Some(Rectangulo) <==> c.vertices == 4 && !(95 * c.bh <= 100 * c.bw <= 105 * c.bh)
    ensures r == Some(Circulo) ==> c.vertices >= 8 && c.perimeter > 0.0
    ensures r == None <==> c.vertices !in {3, 4} && !(c.vertices >= 8 && Circularity(c.area, c.perimeter) > 0.85)
  {
    SquareBandExact(c.bw, c.bh);
    if c.vertices == 3 then
      Some(Triangulo)
    else if c.vertices == 4 then
      if SquareLow <= AspectRatio(c) <= SquareHigh then Some(Cuadrado) else Some(Rectangulo)
    else if c.vertices >= CircleMinVertices && Circularity(c.area, c.perimeter) > CircleMinCircularity then
      Some(Circulo)
    else
      None
  }

  /**
   The square band on the real quotient bw/bh is the same as an integer
   condition on the box sides: 0.95 <= bw/bh <= 1.05 exactly when
   95*bh <= 100*bw <= 105*bh.
   */
  lemma SquareBandExact(bw: nat, bh: Positive)
    ensures (SquareLow <= bw as real / bh as real <= SquareHigh) <==> (95 * bh <= 100 * bw <= 105 * bh)
  {
    var q := bh as real;
    QuotientBounds(bw as real, q, SquareLow);
    QuotientBounds(bw as real, q, SquareHigh);
  }

  /**
   A quadrilateral whose box is exactly square is a Cuadrado, and one whose box
   is twice as wide as it is high is a Rectangulo.
   */
  lemma SquareAndRectangleSeparated(c: Contour)
    requires c.vertices == 4
    ensures c.bw == c.bh ==> Classify(c) == Some(Cuadrado)
    ensures c.bw == 2 * c.bh ==> Classify(c) == Some(Rectangulo)
  {
  }

  /**
   A polygon of at least eight vertices with the area and perimeter of a
   perfect disc is a Circulo.
   */
  lemma DiscIsCirculo(c: Contour, radius: real)
    requires c.vertices >= 8 && radius > 0.0
    requires c.area == Pi * radius * radius && c.perimeter == 2.0 * Pi * radius
    ensures Classify(c) == Some(Circulo)
  {
    DiscCircularity(radius);
  }
}
