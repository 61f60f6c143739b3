/**
 The geometric features the shape detector reads off one contour, and the two
 numeric rules applied to them before classification: the minimum-area filter,
 which scales with the frame, and the circularity measure.

 The features themselves (area, perimeter, vertex count of the approximated
 polygon, bounding box) are produced by the image library; here they are
 plain inputs.
 */
module Features {
  import opened RealArith

  /** The value of `np.pi`, written as a decimal literal. */
  const Pi: real := 3.141592653589793

  /** The fixed floor of the minimum contour area, in square pixels. */
  const AreaFloor: real := 500.0

  /** The fraction of the frame area used as the frame-relative minimum. */
  const AreaScale: real := 0.0002

  type Positive = n: int | n > 0 witness 1

  /**
   What the detector knows about one contour: its area and closed perimeter,
   the vertex count of its polygon approximation, and the bounding box of that
   polygon (top-left corner `x`, `y`, width `bw`, height `bh`). The height is
   positive because the detector divides by it.
   */
  datatype Contour = Contour(
    area: real,
    perimeter: real,
    vertices: nat,
    x: int,
    y: int,
    bw: nat,
    bh: Positive)

  /**
   The minimum area a contour must reach to be classified, for a frame of
   `h` rows and `w` columns: the larger of the fixed floor and 0.0002 of the
   frame area. Ties go to the floor, as Python's `max` keeps its first
   argument unless a later one is strictly larger.
   */
  function AreaMin(h: nat, w: nat): (r: real)
    ensures r >= AreaFloor
    ensures r >= AreaScale * (h * w) as real
    ensures r == AreaFloor || r == AreaScale * (h * w) as real
  {
    var scaled := AreaScale * (h * w) as real;
    if scaled > AreaFloor then scaled else AreaFloor
  }

  /**
   Up to 2,500,000 pixels (a 1920x1080 frame has 2,073,600) the fixed floor
   decides the minimum area; beyond that it grows with the frame.
   */
  lemma AreaMinRegimes(h: nat, w: nat)
    ensures h * w <= 2500000 ==> AreaMin(h, w) == AreaFloor
    ensures h * w > 2500000 ==> AreaMin(h, w) == AreaScale * (h * w) as real > AreaFloor
  {
  }

  /**
   Circularity 4*pi*area/perimeter^2, which is 1 for a perfect disc; a contour
   whose perimeter is not positive gets 0 instead of a division by zero.
   */
  function Circularity(area: real, perimeter: real): (r: real)
    ensures perimeter <= 0.0 ==> r == 0.0
    ensures area >= 0.0 ==> r >= 0.0
  {
    if perimeter > 0.0 then
      QuotientBySquare(area, perimeter);
      4.0 * Pi * (area / (perimeter * perimeter))
    else
      0.0
  }

  /** A perfect disc of any positive radius has circularity exactly 1. */
  lemma DiscCircularity(radius: real)
    requires radius > 0.0
    ensures Circularity(Pi * radius * radius, 2.0 * Pi * radius) == 1.0
  {
    PositiveProduct(2.0 * Pi, radius);
    assert (2.0 * Pi * radius) * (2.0 * Pi * radius) == 4.0 * Pi * (Pi * radius * radius);
    IsoperimetricEquality(Pi * radius * radius, 2.0 * Pi * radius);
  }

  /**
   Circularity depends only on the shape, not on its size: scaling every
   length by k > 0 scales the area by k^2 and leaves circularity unchanged.
   */
  lemma ScaleInvariance(area: real, perimeter: real, k: real)
    requires perimeter > 0.0 && k > 0.0
    ensures Circularity(k * k * area, k * perimeter) == Circularity(area, perimeter)
  {
    PositiveProduct(k, perimeter);
    var q :| q == perimeter * perimeter && q > 0.0 by {
      PositiveProduct(perimeter, perimeter);
    }
    var k2 :| k2 == k * k && k2 > 0.0 by {
      PositiveProduct(k, k);
    }
    assert (k * perimeter) * (k * perimeter) == k2 * q;
    CancelFactor(area, q, k2);
  }

  /** Circularity is 1 whenever perimeter^2 = 4*pi*area, the disc's proportion. */
  lemma IsoperimetricEquality(area: real, perimeter: real)
    requires perimeter > 0.0 && perimeter * perimeter == 4.0 * Pi * area
    ensures Circularity(area, perimeter) == 1.0
  {
    var q :| q == perimeter * perimeter && q > 0.0 by {
      PositiveProduct(perimeter, perimeter);
    }
    UnitRatio(4.0 * Pi, area, q);
  }
}
