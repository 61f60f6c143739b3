/**
 One run of the shape detector over a frame: the contours of the frame, each
 already reduced to its features, are visited in order; those at or above the
 frame's minimum area are classified, and every labelled one is counted and
 drawn onto the frame.
 */
module Detector {
  import opened Features
  import opened Classifier
  import opened Counting

  /**
   The frame the detector annotates in place. Its pixels are not modelled:
   what the detector paints onto it is kept as the list of overlays drawn so
   far.
   */
  class Frame {
    const height: nat
    const width: nat
    var overlays: seq<Overlay>

    constructor (height: nat, width: nat)
      ensures this.height == height && this.width == width
      ensures overlays == []
    {
      this.height := height;
      this.width := width;
      overlays := [];
    }
  }

  /**
   Visits `contours` in order with a fresh count table. A contour below the
   minimum area is skipped; any other one is classified and, when it gets a
   label, adds one to that label's counter and is drawn onto `frame`. Returns
   the count table; the frame keeps what it had and gains exactly the
   overlays of the accepted contours, in order.
   */
  method DetectarFormas(frame: Frame, contours: seq<Contour>) returns (counts: map<Shape, nat>)
    modifies frame
    ensures counts == CountsAfter(AreaMin(frame.height, frame.width), contours)
    ensures frame.overlays == old(frame.overlays) + OverlaysAfter(AreaMin(frame.height, frame.width), contours)
  {
    counts := ZeroCounts();
    var areaMin := AreaMin(frame.height, frame.width);
    for i := 0 to |contours|
      invariant counts == CountsAfter(areaMin, contours[..i])
      invariant frame.overlays == old(frame.overlays) + OverlaysAfter(areaMin, contours[..i])
    {
      var c := contours[i];
      StepAfter(areaMin, contours[..i], c);
      assert contours[..i + 1] == contours[..i] + [c];
      if c.area < areaMin {
        continue;
      }
      var forma := Classify(c);
      if forma.Some? {
        var s := forma.value;
        counts := counts[s := counts[s] + 1];
        frame.overlays := frame.overlays + [OverlayFor(i, c, s)];
      }
    }
    assert contours[..|contours|] == contours;
  }
}
