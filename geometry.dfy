/**
 * Frame arithmetic of the step indicator's layout pass.
 *
 * Every marker is a square of side 2r; markers are spread along one axis
 * of the container, inset by the line margin at both ends, and the
 * segment between two neighbouring markers is inset by the same margin
 * from each of them.  `CGFloat` arithmetic is modelled by `real`.
 */
module Geometry {

  /** A `CGRect`: origin and size. */
  datatype Rect = Rect(x: real, y: real, width: real, height: real)

  /** The rectangle with its two axes exchanged. */
  function Transposed(r: Rect): Rect
  {
    Rect(r.y, r.x, r.height, r.width)
  }

  /**
   * Distance between the near edges of two neighbouring markers along the
   * layout axis (`stepWidth`).  A single step does not divide at all.
   */
  function StepWidth(length: real, margin: real, diameter: real, n: int): (w: real)
    ensures n == 1 ==> w == 0.0
    ensures n != 1 ==> w * (n - 1) as real == length - margin * 2.0 - diameter
  {
    if n == 1 then 0.0 else (length - margin * 2.0 - diameter) / (n - 1) as real
  }

  /** Position of marker `i`'s near edge along the layout axis. */
  function MarkerOffset(i: int, n: int, length: real, radius: real, margin: real): real
  {
    if n == 1 then length / 2.0 - radius
    else margin + i as real * StepWidth(length, margin, radius * 2.0, n)
  }

  /** Position of segment `i`'s near end along the layout axis. */
  function SegmentOffset(i: int, n: int, length: real, radius: real, margin: real): real
  {
    i as real * StepWidth(length, margin, radius * 2.0, n) + radius * 2.0 + margin * 2.0
  }

  /** Length of every segment along the layout axis; it is not clamped at zero. */
  function SegmentLength(n: int, length: real, radius: real, margin: real): real
  {
    StepWidth(length, margin, radius * 2.0, n) - radius * 2.0 - margin * 2.0
  }

  /** Frame of marker `i` in a left-to-right layout of a `width` x `height` container. */
  function MarkerFrameH(i: int, n: int, width: real, height: real, radius: real, margin: real): (r: Rect)
    ensures r.width == r.height == radius * 2.0
    ensures r.y + radius == height / 2.0
  {
    Rect(MarkerOffset(i, n, width, radius, margin), height / 2.0 - radius, radius * 2.0, radius * 2.0)
  }

  /** Frame of marker `i` in a top-to-bottom layout. */
  function MarkerFrameV(i: int, n: int, width: real, height: real, radius: real, margin: real): (r: Rect)
    ensures r.width == r.height == radius * 2.0
    ensures r.x + radius == width / 2.0
  {
    Rect(width / 2.0 - radius, MarkerOffset(i, n, height, radius, margin), radius * 2.0, radius * 2.0)
  }

  /** Frame of segment `i` (between markers `i` and `i + 1`) in a left-to-right layout. */
  function SegmentFrameH(i: int, n: int, width: real, height: real, radius: real, margin: real, stroke: real): (r: Rect)
    ensures r.height == stroke
    ensures r.y + stroke / 2.0 == height / 2.0
  {
    Rect(SegmentOffset(i, n, width, radius, margin), height / 2.0 - stroke / 2.0,
         SegmentLength(n, width, radius, margin), stroke)
  }

  /** Frame of segment `i` in a top-to-bottom layout. */
  function SegmentFrameV(i: int, n: int, width: real, height: real, radius: real, margin: real, stroke: real): (r: Rect)
    ensures r.width == stroke
    ensures r.x + stroke / 2.0 == width / 2.0
  {
    Rect(width / 2.0 - stroke / 2.0, SegmentOffset(i, n, height, radius, margin),
         stroke, SegmentLength(n, height, radius, margin))
  }

  /** With one step there is no spacing and the marker is centred on both axes. */
  lemma SingleMarkerCentred(width: real, height: real, radius: real, margin: real)
    ensures StepWidth(width, margin, radius * 2.0, 1) == 0.0
    ensures MarkerFrameH(0, 1, width, height, radius, margin).x + radius == width / 2.0
    ensures MarkerFrameV(0, 1, width, height, radius, margin).y + radius == height / 2.0
  {
  }

  /**
   * With two or more steps the first marker's near edge sits on the margin
   * and the last marker's far edge sits on the margin at the other end.
   */
  lemma EndMarkersOnMargins(n: int, length: real, radius: real, margin: real)
    requires n >= 2
    ensures MarkerOffset(0, n, length, radius, margin) == margin
    ensures MarkerOffset(n - 1, n, length, radius, margin) + radius * 2.0 == length - margin
  {
  }

  /** Neighbouring markers are one step width apart. */
  lemma MarkersEvenlySpaced(i: int, n: int, length: real, radius: real, margin: real)
    requires n >= 2
    ensures MarkerOffset(i + 1, n, length, radius, margin) - MarkerOffset(i, n, length, radius, margin)
            == StepWidth(length, margin, radius * 2.0, n)
  {
  }

  /**
   * Segment `i` starts one margin after marker `i`'s far edge and ends one
   * margin before marker `i + 1`'s near edge.
   */
  lemma SegmentSpansGap(i: int, n: int, length: real, radius: real, margin: real)
    requires n >= 2
    ensures SegmentOffset(i, n, length, radius, margin)
            == MarkerOffset(i, n, length, radius, margin) + radius * 2.0 + margin
    ensures SegmentOffset(i, n, length, radius, margin) + SegmentLength(n, length, radius, margin)
            == MarkerOffset(i + 1, n, length, radius, margin) - margin
  {
  }

  /**
   * With two or more steps the segments have non-negative length exactly
   * when the container is at least `n` times (diameter + two margins) long.
   */
  lemma SegmentLengthNonNegativeIff(n: int, length: real, radius: real, margin: real)
    requires n >= 2
    ensures SegmentLength(n, length, radius, margin) >= 0.0
            <==> length >= n as real * (radius * 2.0 + margin * 2.0)
  {
  }

  /**
   * Flipping the container about its centre line maps marker `i` onto
   * marker `n - 1 - i`: the flip reverses the visual order of the markers.
   */
  lemma MarkerMirror(i: int, n: int, length: real, radius: real, margin: real)
    requires n >= 1
    ensures length - (MarkerOffset(i, n, length, radius, margin) + radius * 2.0)
            == MarkerOffset(n - 1 - i, n, length, radius, margin)
  {
  }

  /** The same flip maps segment `i` onto segment `n - 2 - i`. */
  lemma SegmentMirror(i: int, n: int, length: real, radius: real, margin: real)
    requires n >= 2
    ensures length - (SegmentOffset(i, n, length, radius, margin) + SegmentLength(n, length, radius, margin))
            == SegmentOffset(n - 2 - i, n, length, radius, margin)
  {
  }

  /** The vertical layout is the horizontal one with the axes exchanged. */
  lemma VerticalIsTransposedHorizontal(i: int, n: int, width: real, height: real, radius: real, margin: real, stroke: real)
    ensures MarkerFrameV(i, n, width, height, radius, margin)
            == Transposed(MarkerFrameH(i, n, height, width, radius, margin))
    ensures SegmentFrameV(i, n, width, height, radius, margin, stroke)
            == Transposed(SegmentFrameH(i, n, height, width, radius, margin, stroke))
  {
  }
}
