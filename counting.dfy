/**
 What one pass of the detector over a list of contours produces, stated as
 functions of the contour list: the count table after the first k contours,
 and the overlays (outline plus label text) drawn on the frame for them. The
 detector's loop is proved against these functions; the lemmas here state
 what the table and the overlays mean.
 */
module Counting {
  import opened Features
  import opened Classifier

  const AllShapes: set<Shape> := {Triangulo, Cuadrado, Rectangulo, Circulo}

  /** A count table holds a counter for every label. */
  predicate IsCountTable(m: map<Shape, nat>)
  {
    forall s: Shape :: s in m
  }

  /** Sum of the four counters. */
  function Total(m: map<Shape, nat>): (sum: nat)
    requires IsCountTable(m)
  {
    m[Triangulo] + m[Cuadrado] + m[Rectangulo] + m[Circulo]
  }

  /** The four labels are all there are. */
  lemma ShapeCases(s: Shape)
    ensures s in AllShapes
  {
  }

  /** A count table has exactly the four labels as keys. */
  lemma CountTableKeys(m: map<Shape, nat>)
    requires IsCountTable(m)
    ensures m.Keys == AllShapes
  {
    forall s | s in m.Keys
      ensures s in AllShapes
    {
      ShapeCases(s);
    }
  }

  /** The table the detector starts from: every label at zero. */
  function ZeroCounts(): (m: map<Shape, nat>)
    ensures IsCountTable(m) && m.Keys == AllShapes
    ensures forall s :: m[s] == 0
    ensures Total(m) == 0
  {
    var m := map[Triangulo := 0, Cuadrado := 0, Rectangulo := 0, Circulo := 0];
    assert IsCountTable(m) by {
      forall s: Shape
        ensures s in m
      {
        ShapeCases(s);
      }
    }
    m
  }

  /**
   The label a contour receives in a frame whose minimum area is `areaMin`:
   a contour strictly below the minimum is skipped, one at or above it is
   classified, so the bound is inclusive.
   */
  function Outcome(areaMin: real, c: Contour): (r: Option<Shape>)
    ensures c.area < areaMin ==> r == None
    ensures c.area >= areaMin ==> r == Classify(c)
    ensures c.area == areaMin ==> r == Classify(c)
    ensures r.Some? ==> c.area >= areaMin && Classify(c) == r
  {
    if c.area < areaMin then None else Classify(c)
  }

  /**
   One contour's effect on the table: a label adds exactly one to its own
   counter and leaves the other three alone; no label changes nothing.
   */
  function Tally(m: map<Shape, nat>, o: Option<Shape>): (r: map<Shape, nat>)
    requires IsCountTable(m)
    ensures IsCountTable(r)
    ensures forall s :: r[s] == if o == Some(s) then m[s] + 1 else m[s]
    ensures Total(r) == Total(m) + (if o.Some? then 1 else 0)
  {
    if o.Some? then
      var s := o.value;
      var r := m[s := m[s] + 1];
      assert Total(r) == Total(m) + 1 by {
        ShapeCases(s);
      }
      r
    else
      m
  }

  /** The count table after the detector has looked at every contour of `cs`, in order. */
  function CountsAfter(areaMin: real, cs: seq<Contour>): (m: map<Shape, nat>)
    ensures IsCountTable(m)
    ensures Total(m) <= |cs|
    decreases |cs|
  {
    if cs == [] then
      ZeroCounts()
    else
      Tally(CountsAfter(areaMin, cs[..|cs| - 1]), Outcome(areaMin, cs[|cs| - 1]))
  }

  /** Drawing colours, in blue-green-red order. */
  datatype Colour = Bgr(blue: int, green: int, red: int)

  function ColourOf(s: Shape): (colour: Colour)
  {
    match s
    case Triangulo => Bgr(0, 255, 255)
    case Cuadrado => Bgr(255, 0, 0)
    case Rectangulo => Bgr(0, 255, 0)
    case Circulo => Bgr(0, 0, 255)
  }

  /**
   What the detector draws for one accepted contour: the outline of the
   contour with index `contour`, in the label's colour, and the label text
   placed 10 pixels above the top-left corner of its bounding box.
   */
  datatype Overlay = Overlay(contour: nat, shape: Shape, colour: Colour, textX: int, textY: int)

  function OverlayFor(i: nat, c: Contour, s: Shape): (o: Overlay)
  {
    Overlay(i, s, ColourOf(s), c.x, c.y - 10)
  }

  /** The overlays drawn while looking at every contour of `cs`, in drawing order. */
  function OverlaysAfter(areaMin: real, cs: seq<Contour>): (os: seq<Overlay>)
    ensures |os| <= |cs|
    ensures forall k :: 0 <= k < |os| ==> os[k].contour < |cs|
    ensures forall j, k :: 0 <= j < k < |os| ==> os[j].contour < os[k].contour
    decreases |cs|
  {
    if cs == [] then
      []
    else
      var last := |cs| - 1;
      var earlier := OverlaysAfter(areaMin, cs[..last]);
      match Outcome(areaMin, cs[last])
      case None => earlier
      case Some(s) => earlier + [OverlayFor(last, cs[last], s)]
  }

  /** The labels of a sequence of overlays, in order. */
  function Labels(os: seq<Overlay>): (ls: seq<Shape>)
    ensures |ls| == |os|
  {
    seq(|os|, k requires 0 <= k < |os| => os[k].shape)
  }

  lemma LabelsAppend(os: seq<Overlay>, o: Overlay)
    ensures Labels(os + [o]) == Labels(os) + [o.shape]
  {
  }

  /** Looking at one more contour extends the table and the overlays by that contour's outcome. */
  lemma StepAfter(areaMin: real, cs: seq<Contour>, c: Contour)
    ensures CountsAfter(areaMin, cs + [c]) == Tally(CountsAfter(areaMin, cs), Outcome(areaMin, c))
    ensures OverlaysAfter(areaMin, cs + [c]) ==
      OverlaysAfter(areaMin, cs) + match Outcome(areaMin, c) case None => [] case Some(s) => [OverlayFor(|cs|, c, s)]
  {
  }

  /**
   Counting is additive over a split of the contour list: the table for
   `a + b` is the sum, label by label, of the tables for `a` and for `b`.
   */
  lemma {:induction false} CountsConcat(areaMin: real, a: seq<Contour>, b: seq<Contour>, s: Shape)
    ensures CountsAfter(areaMin, a + b)[s] == CountsAfter(areaMin, a)[s] + CountsAfter(areaMin, b)[s]
    decreases |b|
  {
    if b == [] {
      assert a + b == a;
    } else {
      var b' := b[..|b| - 1];
      var c := b[|b| - 1];
      var o := Outcome(areaMin, c);
      assert b == b' + [c];
      assert a + b == (a + b') + [c];
      CountsConcat(areaMin, a, b', s);
      StepAfter(areaMin, a + b', c);
      StepAfter(areaMin, b', c);
      var inc := if o == Some(s) then 1 else 0;
      assert CountsAfter(areaMin, a + b)[s] == CountsAfter(areaMin, a + b')[s] + inc;
      assert CountsAfter(areaMin, b)[s] == CountsAfter(areaMin, b')[s] + inc;
    }
  }

  /** No counter ever goes down as the detector moves through the contours. */
  lemma CountsNeverDecrease(areaMin: real, cs: seq<Contour>, i: nat, j: nat, s: Shape)
    requires i <= j <= |cs|
    ensures CountsAfter(areaMin, cs[..i])[s] <= CountsAfter(areaMin, cs[..j])[s]
  {
    assert cs[..i] + cs[i..j] == cs[..j];
    CountsConcat(areaMin, cs[..i], cs[i..j], s);
  }

  /** The counters add up to the number of overlays drawn. */
  lemma {:induction false} TotalIsOverlayCount(areaMin: real, cs: seq<Contour>)
    ensures Total(CountsAfter(areaMin, cs)) == |OverlaysAfter(areaMin, cs)|
    decreases |cs|
  {
    if cs != [] {
      TotalIsOverlayCount(areaMin, cs[..|cs| - 1]);
    }
  }

  /** The indices of the contours of `cs` that pass the area filter and receive a label. */
  function AcceptedIndices(areaMin: real, cs: seq<Contour>): (ix: set<nat>)
    ensures forall i :: i in ix ==> i < |cs|
  {
    set i: nat | i < |cs| && cs[i].area >= areaMin && Classify(cs[i]).Some?
  }

  /** The accepted indices of `cs` are those of its prefix, plus the last index if that contour is accepted. */
  lemma AcceptedIndicesStep(areaMin: real, cs: seq<Contour>)
    requires cs != []
    ensures var last := |cs| - 1;
      var before := AcceptedIndices(areaMin, cs[..last]);
      last !in before &&
      AcceptedIndices(areaMin, cs) == if Outcome(areaMin, cs[last]).Some? then before + {last} else before
  {
    var last := |cs| - 1;
    var prefix := cs[..last];
    var before := AcceptedIndices(areaMin, prefix);
    var after := AcceptedIndices(areaMin, cs);
    var extra: set<nat> := if Outcome(areaMin, cs[last]).Some? then {last} else {};
    forall i: nat
      ensures i in after <==> i in before + extra
    {
      if i < last {
        assert prefix[i] == cs[i];
      }
    }
    assert after == before + extra;
  }

  /**
   The counters add up to the number of contours that passed the area filter
   and received a label.
   */
  lemma {:induction false} TotalIsAcceptedCount(areaMin: real, cs: seq<Contour>)
    ensures Total(CountsAfter(areaMin, cs)) == |AcceptedIndices(areaMin, cs)|
    decreases |cs|
  {
    if cs != [] {
      var last := |cs| - 1;
      TotalIsAcceptedCount(areaMin, cs[..last]);
      AcceptedIndicesStep(areaMin, cs);
    }
  }

  /** Each counter equals the number of overlays drawn with that label. */
  lemma {:induction false} CountsMatchLabels(areaMin: real, cs: seq<Contour>, s: Shape)
    ensures CountsAfter(areaMin, cs)[s] == multiset(Labels(OverlaysAfter(areaMin, cs)))[s]
    decreases |cs|
  {
    if cs != [] {
      var last := |cs| - 1;
      var c := cs[last];
      var earlier := OverlaysAfter(areaMin, cs[..last]);
      CountsMatchLabels(areaMin, cs[..last], s);
      match Outcome(areaMin, c)
      case None =>
      case Some(t) =>
        var o := OverlayFor(last, c, t);
        LabelsAppend(earlier, o);
        assert multiset(Labels(earlier) + [t])[s] == multiset(Labels(earlier))[s] + (if t == s then 1 else 0);
    }
  }

  /**
   Every overlay belongs to a contour that passed the area filter, carries
   that contour's label and its colour, and has its text above the contour's
   bounding box.
   */
  lemma {:induction false} OverlaysAreAccepted(areaMin: real, cs: seq<Contour>, k: nat)
    requires k < |OverlaysAfter(areaMin, cs)|
    ensures var o := OverlaysAfter(areaMin, cs)[k];
      o.contour < |cs| && cs[o.contour].area >= areaMin &&
      Classify(cs[o.contour]) == Some(o.shape) &&
      o == OverlayFor(o.contour, cs[o.contour], o.shape)
    decreases |cs|
  {
    var last := |cs| - 1;
    var earlier := OverlaysAfter(areaMin, cs[..last]);
    if k < |earlier| {
      OverlaysAreAccepted(areaMin, cs[..last], k);
    }
  }

  /** Every contour that passed the area filter and received a label is drawn. */
  lemma {:induction false} AcceptedAreDrawn(areaMin: real, cs: seq<Contour>, i: nat)
    requires i < |cs| && Outcome(areaMin, cs[i]).Some?
    ensures exists k :: 0 <= k < |OverlaysAfter(areaMin, cs)| && OverlaysAfter(areaMin, cs)[k].contour == i
    decreases |cs|
  {
    var last := |cs| - 1;
    var earlier := OverlaysAfter(areaMin, cs[..last]);
    if i < last {
      AcceptedAreDrawn(areaMin, cs[..last], i);
      var k :| 0 <= k < |earlier| && earlier[k].contour == i;
      assert OverlaysAfter(areaMin, cs)[k] == earlier[k];
    } else {
      assert OverlaysAfter(areaMin, cs)[|earlier|].contour == i;
    }
  }

  /**
   A list whose contours are all below the minimum area leaves the table at
   zero and draws nothing.
   */
  lemma {:induction false} AllBelowMinimum(areaMin: real, cs: seq<Contour>)
    requires forall i :: 0 <= i < |cs| ==> cs[i].area < areaMin
    ensures CountsAfter(areaMin, cs) == ZeroCounts()
    ensures OverlaysAfter(areaMin, cs) == []
    decreases |cs|
  {
    if cs != [] {
      AllBelowMinimum(areaMin, cs[..|cs| - 1]);
    }
  }
}
