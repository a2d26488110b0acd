/** The box drawn around a detected hand: the extent of its landmarks' x and
    y coordinates. */
module BoundingBox {
  import opened HandFeatures

  datatype Box = Box(x: real, y: real, width: real, height: real)

  /** The smallest value of a non-empty list (`Math.min(...vs)`). */
  function MinOf(vs: seq<real>): (m: real)
    requires |vs| > 0
    ensures m in vs
    ensures forall i :: 0 <= i < |vs| ==> m <= vs[i]
  {
    if |vs| == 1 then vs[0]
    else
      var rest := MinOf(vs[1..]);
      if vs[0] <= rest then vs[0] else rest
  }

  /** The largest value of a non-empty list (`Math.max(...vs)`). */
  function MaxOf(vs: seq<real>): (m: real)
    requires |vs| > 0
    ensures m in vs
    ensures forall i :: 0 <= i < |vs| ==> vs[i] <= m
  {
    if |vs| == 1 then vs[0]
    else
      var rest := MaxOf(vs[1..]);
      if vs[0] >= rest then vs[0] else rest
  }

  /** The x coordinates of the landmarks, in order. */
  function Xs(lm: Landmarks): (xs: seq<real>)
    ensures |xs| == |lm| && forall i :: 0 <= i < |lm| ==> xs[i] == lm[i].x
  {
    seq(|lm|, i requires 0 <= i < |lm| => lm[i].x)
  }

  /** The y coordinates of the landmarks, in order. */
  function Ys(lm: Landmarks): (ys: seq<real>)
    ensures |ys| == |lm| && forall i :: 0 <= i < |lm| ==> ys[i] == lm[i].y
  {
    seq(|lm|, i requires 0 <= i < |lm| => lm[i].y)
  }

  predicate Contains(box: Box, p: Point)
  {
    box.x <= p.x <= box.x + box.width && box.y <= p.y <= box.y + box.height
  }

  /** The box from the smallest to the largest x and y. It has no negative
      side, it contains every landmark, and each of its four edges touches a
      landmark. */
  function GetBoundingBox(lm: Landmarks): (box: Box)
    requires |lm| > 0
    ensures box.width >= 0.0 && box.height >= 0.0
    ensures forall i :: 0 <= i < |lm| ==> Contains(box, lm[i])
    ensures exists i :: 0 <= i < |lm| && lm[i].x == box.x
    ensures exists i :: 0 <= i < |lm| && lm[i].y == box.y
    ensures exists i :: 0 <= i < |lm| && lm[i].x == box.x + box.width
    ensures exists i :: 0 <= i < |lm| && lm[i].y == box.y + box.height
  {
    var xs, ys := Xs(lm), Ys(lm);
    Box(MinOf(xs), MinOf(ys), MaxOf(xs) - MinOf(xs), MaxOf(ys) - MinOf(ys))
  }

  /** The box is the smallest one that contains every landmark: any other
      such box encloses it. */
  lemma BoundingBoxIsSmallest(lm: Landmarks, other: Box)
    requires |lm| > 0
    requires forall i :: 0 <= i < |lm| ==> Contains(other, lm[i])
    ensures var box := GetBoundingBox(lm);
      && other.x <= box.x && box.x + box.width <= other.x + other.width
      && other.y <= box.y && box.y + box.height <= other.y + other.height
  {
  }
}
