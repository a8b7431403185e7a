/**
 * Ground-truth rows in YOLO centre form, corner-form boxes, and the
 * intersection-over-union score between two boxes.
 */
module Boxes {
  import opened Wrappers

  /** Corner-form box in absolute pixels: (x1, y1) top-left, (x2, y2) bottom-right. */
  datatype Box = Box(x1: real, y1: real, x2: real, y2: real)

  /** One label row `class cx cy w h`, centre and size normalised to the image. */
  datatype Label = Label(cls: real, cx: real, cy: real, w: real, h: real)

  /** The additive guard in the IoU denominator (1e-6). */
  const Epsilon: real := 0.000001

  predicate WellFormed(b: Box) {
    b.x1 <= b.x2 && b.y1 <= b.y2
  }

  function Max(a: real, b: real): real { if a >= b then a else b }
  function Min(a: real, b: real): real { if a <= b then a else b }

  /**
   * Converts one centre-form row to corners for an image of the given pixel
   * size. The box is centred on (cx * width, cy * height) and measures
   * w * width by h * height.
   */
  function ToCorners(l: Label, width: nat, height: nat): (b: Box)
    ensures b.x1 + b.x2 == 2.0 * l.cx * width as real
    ensures b.y1 + b.y2 == 2.0 * l.cy * height as real
    ensures b.x2 - b.x1 == l.w * width as real
    ensures b.y2 - b.y1 == l.h * height as real
    ensures l.w >= 0.0 && l.h >= 0.0 ==> WellFormed(b)
  {
    var W, H := width as real, height as real;
    Box((l.cx - l.w / 2.0) * W, (l.cy - l.h / 2.0) * H,
        (l.cx + l.w / 2.0) * W, (l.cy + l.h / 2.0) * H)
  }

  /** Recovers the normalised centre and size of a corner box (inverse of ToCorners). */
  function ToCentre(b: Box, width: nat, height: nat): (r: (real, real, real, real))
    requires width > 0 && height > 0
  {
    var W, H := width as real, height as real;
    ((b.x1 + b.x2) / (2.0 * W), (b.y1 + b.y2) / (2.0 * H), (b.x2 - b.x1) / W, (b.y2 - b.y1) / H)
  }

  lemma CornersRoundTrip(l: Label, width: nat, height: nat)
    requires width > 0 && height > 0
    ensures ToCentre(ToCorners(l, width, height), width, height) == (l.cx, l.cy, l.w, l.h)
  {
    var b := ToCorners(l, width, height);
    var W, H := width as real, height as real;
    assert (b.x1 + b.x2) / (2.0 * W) == l.cx by { assert b.x1 + b.x2 == l.cx * (2.0 * W); }
    assert (b.y1 + b.y2) / (2.0 * H) == l.cy by { assert b.y1 + b.y2 == l.cy * (2.0 * H); }
    assert (b.x2 - b.x1) / W == l.w by { assert b.x2 - b.x1 == l.w * W; }
    assert (b.y2 - b.y1) / H == l.h by { assert b.y2 - b.y1 == l.h * H; }
  }

  /** Converts every row, in order; an empty table gives an empty result. */
  function YoloToXyxy(labels: seq<Label>, width: nat, height: nat): (boxes: seq<Box>)
    ensures |boxes| == |labels|
    ensures forall i :: 0 <= i < |boxes| ==> boxes[i] == ToCorners(labels[i], width, height)
    ensures (forall l :: l in labels ==> l.w >= 0.0 && l.h >= 0.0) ==>
              forall b :: b in boxes ==> WellFormed(b)
  {
    seq(|labels|, i requires 0 <= i < |labels| => ToCorners(labels[i], width, height))
  }

  /** Overlap rectangle area, each side clamped at zero. */
  function Intersection(a: Box, b: Box): (r: real)
    ensures r >= 0.0
  {
    var xA, yA := Max(a.x1, b.x1), Max(a.y1, b.y1);
    var xB, yB := Min(a.x2, b.x2), Min(a.y2, b.y2);
    Max(0.0, xB - xA) * Max(0.0, yB - yA)
  }

  function Area(b: Box): real {
    (b.x2 - b.x1) * (b.y2 - b.y1)
  }

  function Denominator(a: Box, b: Box): real {
    Area(a) + Area(b) - Intersection(a, b) + Epsilon
  }

  /**
   * IoU of two boxes; None stands for the division by zero that the source
   * raises when the denominator vanishes (only possible for boxes of
   * negative area).
   */
  function Iou(a: Box, b: Box): (r: Option<real>)
    ensures r.None? <==> Denominator(a, b) == 0.0
  {
    var d := Denominator(a, b);
    if d == 0.0 then None else Some(Intersection(a, b) / d)
  }

  /**
   * Boxes whose extents do not overlap by a positive length in the x axis or
   * in the y axis (boxes that only touch count as disjoint).
   */
  predicate Disjoint(a: Box, b: Box) {
    Min(a.x2, b.x2) <= Max(a.x1, b.x1) || Min(a.y2, b.y2) <= Max(a.y1, b.y1)
  }

  lemma IouSymmetric(a: Box, b: Box)
    ensures Iou(a, b) == Iou(b, a)
  {
    assert Intersection(a, b) == Intersection(b, a);
  }

  lemma MulMono(p: real, P: real, q: real, Q: real)
    requires 0.0 <= p <= P && 0.0 <= q <= Q
    ensures p * q <= P * Q
  {
    assert p * q <= P * q;
  }

  lemma IntersectionBelowArea(a: Box, b: Box)
    requires WellFormed(a) && WellFormed(b)
    ensures Intersection(a, b) <= Area(a) && Intersection(a, b) <= Area(b)
  {
    var dx := Max(0.0, Min(a.x2, b.x2) - Max(a.x1, b.x1));
    var dy := Max(0.0, Min(a.y2, b.y2) - Max(a.y1, b.y1));
    MulMono(dx, a.x2 - a.x1, dy, a.y2 - a.y1);
    MulMono(dx, b.x2 - b.x1, dy, b.y2 - b.y1);
  }

  /** For well-formed boxes the score is defined and lies in [0, 1). */
  lemma IouRange(a: Box, b: Box)
    requires WellFormed(a) && WellFormed(b)
    ensures Iou(a, b).Some? && 0.0 <= Iou(a, b).value < 1.0
  {
    IntersectionBelowArea(a, b);
    var i, d := Intersection(a, b), Denominator(a, b);
    assert d >= i + Epsilon by {
      MulMono(0.0, a.x2 - a.x1, 0.0, a.y2 - a.y1);
    }
    var r := Iou(a, b).value;
    assert r * d == i;
  }

  /**
   * Disjoint boxes have zero intersection, hence score 0 whenever the score
   * is defined; and a defined score of 0 happens only for disjoint boxes.
   */
  lemma IouZeroIffDisjoint(a: Box, b: Box)
    ensures Disjoint(a, b) ==> Intersection(a, b) == 0.0
    ensures Iou(a, b).Some? ==> (Iou(a, b).value == 0.0 <==> Disjoint(a, b))
  {
    var dx := Max(0.0, Min(a.x2, b.x2) - Max(a.x1, b.x1));
    var dy := Max(0.0, Min(a.y2, b.y2) - Max(a.y1, b.y1));
    if !Disjoint(a, b) {
      assert dx > 0.0 && dy > 0.0;
      assert dx * dy > 0.0;
    }
  }

  /**
   * A well-formed box against itself scores A / (A + 1e-6), not exactly 1:
   * the epsilon stays in the denominator.
   */
  lemma IouIdentical(a: Box)
    requires WellFormed(a)
    ensures Iou(a, a) == Some(Area(a) / (Area(a) + Epsilon))
    ensures Iou(a, a).value < 1.0
    ensures Area(a) > Epsilon ==> Iou(a, a).value > 0.5
  {
    var A := Area(a);
    assert Intersection(a, a) == A;
    assert Denominator(a, a) == A + Epsilon;
    IouRange(a, a);
    if A > Epsilon {
      HalfBelow(A, A / (A + Epsilon));
    }
  }

  lemma HalfBelow(A: real, r: real)
    requires A > Epsilon && r == A / (A + Epsilon)
    ensures r > 0.5
  {
    var k := A + Epsilon;
    var x := r - 0.5;
    assert r * k == A;
    assert x * k == A - 0.5 * k;
    assert A - 0.5 * k > 0.0;
    PositiveFactor(x, k);
  }

  lemma PositiveFactor(x: real, k: real)
    requires k > 0.0 && x * k > 0.0
    ensures x > 0.0
  {
    assert x == (x * k) / k;
  }
}
