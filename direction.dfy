/**
 * The four layout directions, their raw `UInt` encoding, and the flip
 * each one applies to the container and to every marker.
 */
module Directions {

  datatype Option<T> = None | Some(value: T)

  /** `StepIndicatorViewDirection`, raw values 0 to 3 in declaration order. */
  datatype Direction = LeftToRight | RightToLeft | TopToBottom | BottomToTop

  /** Tag standing for the layer transform: identity or a half turn about the y or the x axis. */
  datatype Transform = Identity | FlipAboutY | FlipAboutX

  /** `rawValue` of a direction. */
  function RawValue(d: Direction): (raw: nat)
    ensures raw <= 3
  {
    match d
    case LeftToRight => 0
    case RightToLeft => 1
    case TopToBottom => 2
    case BottomToTop => 3
  }

  /** The failable initializer `init?(rawValue:)`: defined exactly on 0 to 3. */
  function FromRawValue(raw: nat): (r: Option<Direction>)
    ensures r.Some? <==> raw <= 3
    ensures r.Some? ==> RawValue(r.value) == raw
  {
    if raw == 0 then Some(LeftToRight)
    else if raw == 1 then Some(RightToLeft)
    else if raw == 2 then Some(TopToBottom)
    else if raw == 3 then Some(BottomToTop)
    else None
  }

  /**
   * The `directionRaw` setter's conversion: a value above 3 becomes 0
   * before the initializer runs, so the forced unwrap always succeeds.
   */
  function ClampedDirection(raw: nat): (d: Direction)
    ensures RawValue(d) == if raw > 3 then 0 else raw
  {
    var value := if raw > 3 then 0 else raw;
    FromRawValue(value).value
  }

  /** Raw encoding and initializer are inverse to each other. */
  lemma RawValueRoundTrip(d: Direction)
    ensures FromRawValue(RawValue(d)) == Some(d)
    ensures ClampedDirection(RawValue(d)) == d
  {
  }

  /** Left-to-right and right-to-left use the horizontal layout; the other two the vertical one. */
  predicate IsHorizontal(d: Direction)
  {
    d == LeftToRight || d == RightToLeft
  }

  /** The transform `applyDirection` gives the container and every marker. */
  function DirectionTransform(d: Direction): (t: Transform)
    ensures t == FlipAboutY <==> d == RightToLeft
    ensures t == FlipAboutX <==> d == BottomToTop
    ensures t == Identity <==> d == LeftToRight || d == TopToBottom
  {
    match d
    case RightToLeft => FlipAboutY
    case BottomToTop => FlipAboutX
    case _ => Identity
  }

  /**
   * A flip only ever reverses the axis the markers are laid out along:
   * a half turn about y mirrors x (horizontal layout), one about x mirrors y.
   */
  lemma FlipFollowsLayoutAxis(d: Direction)
    ensures DirectionTransform(d) == FlipAboutY ==> IsHorizontal(d)
    ensures DirectionTransform(d) == FlipAboutX ==> !IsHorizontal(d)
  {
  }
}
