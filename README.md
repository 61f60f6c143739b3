# Shape detector: contour classification and counting

A model of the classification core of a browser-hosted geometric shape
detector. For one frame, the detector extracts the outer contours of the
edge map. It skips every contour smaller than a minimum area derived from
the frame size. It labels each remaining contour Triangulo, Cuadrado,
Rectangulo or Circulo with a fixed decision tree over the vertex count of
its approximated polygon, the aspect ratio of its bounding box and its
circularity. Each labelled contour adds one to that label's counter in a
four-key table and is drawn onto the frame. The model also covers the
adaptive Canny thresholds that the detector derives from the median
intensity of the blurred image.

The image-library stages (colour conversion, contrast equalisation, blur,
Canny, morphology, contour extraction, polygon approximation, area,
perimeter and bounding box) are not modelled. Their results enter the model
as inputs: a `Contour` record carries area and perimeter as reals, the
vertex count, and the bounding box `x`, `y`, `bw`, `bh`.

Files:

- `features.dfy` (module `Features`): the contour record, the minimum-area rule and circularity.
- `classifier.dfy` (module `Classifier`): the label decision tree.
- `edges.dfy` (module `EdgeThresholds`): the adaptive Canny thresholds.
- `counting.dfy` (module `Counting`): the count table and the overlays after visiting a list of contours, as functions, with the lemmas about them.
- `arith.dfy` (module `RealArith`): small facts about real products and quotients used by the proofs.
- `detector.dfy` (module `Detector`): the frame object and the detection loop, which updates the table and draws onto the frame in place. It is proved equal to the `Counting` functions.

The model follows `computer_visio_m4.py`, whose rules are simpler than a
general shape detector's:

- There is no maximum-area filter.
- There is no Hough-transform circle fallback.
- The circularity has no epsilon in its denominator. A perimeter that is not positive gives circularity 0.
- A triangle needs no circularity floor.
- A four-vertex contour outside the square band is always a Rectangulo. There is no second band that rejects it.
- A circle needs at least 8 vertices and circularity strictly above 0.85. There is no aspect-ratio condition.
- All thresholds are fixed constants, not configuration.

## Model

| member | source | states |
|---|---|---|
| `Features.AreaMin` | computer_visio_m4.py:46-47 | the minimum area is at least 500 and at least 0.0002·h·w, and it equals one of the two |
| `Features.AreaMinRegimes` | computer_visio_m4.py:47 | up to 2,500,000 pixels the minimum is exactly 500; above that it is 0.0002·h·w, which is then strictly larger |
| `Features.Circularity` | computer_visio_m4.py:58-60 | a perimeter that is not positive gives circularity 0 and no division; a non-negative area gives a non-negative circularity |
| `Features.ScaleInvariance` | computer_visio_m4.py:58-60 | scaling every length of a contour by k > 0 (area by k²) leaves its circularity unchanged |
| `Features.IsoperimetricEquality` | computer_visio_m4.py:58-60 | circularity is exactly 1 when perimeter² = 4π·area |
| `Features.DiscCircularity` | computer_visio_m4.py:58-60 | a perfect disc of any positive radius has circularity 1 |
| `Classifier.Classify` | computer_visio_m4.py:62-79 | Triangulo iff 3 vertices; 4 vertices always get a label, Cuadrado iff 95·bh ≤ 100·bw ≤ 105·bh and Rectangulo otherwise; Circulo only with ≥ 8 vertices and a positive perimeter; no label iff the count is neither 3 nor 4 and not (≥ 8 vertices with circularity > 0.85), so 5, 6 and 7 vertices are always rejected |
| `Classifier.SquareBandExact` | computer_visio_m4.py:69-70 | the real band 0.95 ≤ bw/bh ≤ 1.05, with both ends inclusive, is the integer condition 95·bh ≤ 100·bw ≤ 105·bh |
| `Classifier.SquareAndRectangleSeparated` | computer_visio_m4.py:68-75 | a 4-vertex contour with a square box is a Cuadrado, and one with a 2:1 box is a Rectangulo |
| `Classifier.DiscIsCirculo` | computer_visio_m4.py:58-79 | a polygon with ≥ 8 vertices and the area and perimeter of a perfect disc is a Circulo |
| `EdgeThresholds.Trunc` | computer_visio_m4.py:36-37 | `int()` truncates toward zero: the result is within one of its argument, on the same side of zero and no farther from it |
| `EdgeThresholds.CannyThresholds` | computer_visio_m4.py:35-37 | for any median, the lower threshold is ≥ 0 and the upper one ≤ 255 |
| `EdgeThresholds.ThresholdsInByteRange` | computer_visio_m4.py:34-37 | for a median v in [0, 255]: 0 ≤ lower ≤ upper ≤ 255, lower = ⌊0.75·v⌋, and upper = ⌊1.25·v⌋ below 204 and 255 from 204 on |
| `EdgeThresholds.ThresholdsMonotone` | computer_visio_m4.py:36-37 | a higher median never lowers either threshold |
| `Counting.ZeroCounts` | computer_visio_m4.py:25 | the initial table has exactly the keys Triangulo, Cuadrado, Rectangulo and Circulo, all at 0 |
| `Counting.CountTableKeys` | computer_visio_m4.py:25 | every count table has exactly those four keys |
| `Counting.Outcome` | computer_visio_m4.py:49-52 | a contour strictly below the minimum area gets no label; every contour at or above the minimum, including one exactly at it, gets the classifier's label, so the bound is inclusive |
| `Counting.Tally` | computer_visio_m4.py:81-82 | a label adds exactly 1 to its own counter and leaves the other three unchanged; no label changes nothing; the table keeps all four keys |
| `Counting.CountsAfter` | computer_visio_m4.py:49-82 | the table after any number of contours is still a four-key table, and its counters sum to at most the number of contours |
| `Counting.OverlaysAfter` | computer_visio_m4.py:81-85 | at most one overlay per contour, each for a contour of the list, in strictly increasing contour order, so no contour is drawn twice |
| `Counting.CountsConcat` | computer_visio_m4.py:49-82 | the table for a list a + b is, label by label, the sum of the tables for a and for b |
| `Counting.CountsNeverDecrease` | computer_visio_m4.py:82 | no counter ever decreases as the loop advances |
| `Counting.TotalIsAcceptedCount` | computer_visio_m4.py:49-82 | the counters sum to the number of contours whose area is at least the minimum and that received a label |
| `Counting.TotalIsOverlayCount` | computer_visio_m4.py:81-85 | the counters sum to the number of overlays drawn |
| `Counting.CountsMatchLabels` | computer_visio_m4.py:81-85 | each counter equals the number of overlays drawn with that label |
| `Counting.OverlaysAreAccepted` | computer_visio_m4.py:49-85 | every overlay belongs to a contour at or above the minimum area, carries that contour's label and colour, and puts its text 10 pixels above the box corner |
| `Counting.AcceptedAreDrawn` | computer_visio_m4.py:49-85 | every contour that passed the filter and got a label is drawn |
| `Counting.AllBelowMinimum` | computer_visio_m4.py:49-52 | when every contour is below the minimum area, the table stays all zero and nothing is drawn |
| `Detector.DetectarFormas` | computer_visio_m4.py:24-87 | the loop returns exactly the table `CountsAfter` of the frame's minimum area and contours; the frame keeps what it had and gains exactly the overlays `OverlaysAfter`, in order |

## Left out

- The image-library operations (`cvtColor`, CLAHE, `GaussianBlur`, `Canny`, morphology, `findContours`, `approxPolyDP`, `contourArea`, `arcLength`, `boundingRect`) are foreign code. Their results enter the model only as the fields of `Contour`.
- `np.median` is a library statistic. The median is a parameter of `CannyThresholds`.
- Drawing with `drawContours` and `putText` changes pixels in a library that is not modelled. Each drawing is recorded as an `Overlay` appended to the frame: contour index, label, colour and text position. Line thickness, font and font scale are not recorded.
- `mostrar_histograma`, the Streamlit page and the PIL/numpy image conversion are UI and I/O.
- Floating-point rounding: area, perimeter, aspect ratio, circularity and thresholds are exact reals. π is the decimal value of `np.pi`.
- A bounding box of height 0 would make the source raise a division error on a four-vertex contour. `Contour.bh` is positive instead, and that exception is not modelled.
- The drawn outline is the approximated polygon, which the model does not carry. An overlay names its contour by index.
