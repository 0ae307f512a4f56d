/**
 * The marker (`AnnularLayer`) and segment (`LineLayer`) records the
 * indicator keeps, the per-record effect of its layout, style, direction
 * and state passes, and what those passes guarantee.
 */
module Layers {
  import opened Geometry
  import opened Directions

  /** An opaque colour token; `Clear` is the fully transparent colour. */
  datatype Color = Clear | Token(id: nat)

  /** The indicator's style knobs, each of which triggers a relayout when set. */
  datatype Style = Style(
    displayNumbers: bool,
    circleRadius: real,
    circleUnCompleteColor: Color,
    circleCompleteColor: Color,
    circleStrokeWidth: real,
    lineUnCompleteColor: Color,
    lineCompleteColor: Color,
    lineMargin: real,
    lineStrokeWidth: real,
    direction: Direction,
    showInitialStep: bool)

  /** The values the properties are declared with. */
  const DefaultStyle: Style :=
    Style(false, 10.0, Clear, Clear, 3.0, Clear, Clear, 4.0, 2.0, LeftToRight, true)

  /** The fields of one step marker that the indicator reads or writes. */
  datatype Marker = Marker(
    frame: Rect,
    step: int,
    isFinished: bool,
    isCurrent: bool,
    defaultColor: Color,
    tintColor: Color,
    lineWidth: real,
    displayNumber: bool,
    dashPattern: seq<nat>,
    transform: Transform)

  /** The fields of one connecting segment that the indicator reads or writes. */
  datatype Segment = Segment(
    frame: Rect,
    isFinished: bool,
    isHorizontal: bool,
    strokeColor: Color,
    tintColor: Color,
    lineWidth: real,
    dashPhase: real,
    dashPattern: seq<nat>)

  const DashPattern: seq<nat> := [5, 1]

  /** A newly created marker: neither finished nor current. */
  const FreshMarker: Marker :=
    Marker(Rect(0.0, 0.0, 0.0, 0.0), 0, false, false, Clear, Clear, 0.0, false, [], Identity)

  /** A newly created segment: not finished and horizontal. */
  const FreshSegment: Segment :=
    Segment(Rect(0.0, 0.0, 0.0, 0.0), false, true, Clear, Clear, 0.0, 0.0, [])

  // ---------------------------------------------------------------------
  // Style and layout of one record
  // ---------------------------------------------------------------------

  /**
   * `applyAnnularStyle`: the first marker is drawn in `Clear` when the
   * initial step is hidden; styling touches no geometry and no state flag.
   */
  function StyledMarker(m: Marker, index: int, st: Style): (r: Marker)
    ensures r.frame == m.frame && r.step == m.step && r.transform == m.transform
    ensures r.isFinished == m.isFinished && r.isCurrent == m.isCurrent
  {
    var hidden := !st.showInitialStep && index == 0;
    m.(defaultColor := if hidden then Clear else st.circleUnCompleteColor,
       tintColor := if hidden then Clear else st.circleCompleteColor,
       lineWidth := st.circleStrokeWidth,
       displayNumber := st.displayNumbers,
       dashPattern := DashPattern)
  }

  /** `applyLineStyle`: styling touches neither the frame, the orientation nor the state. */
  function StyledSegment(s: Segment, st: Style): (r: Segment)
    ensures r.frame == s.frame && r.isHorizontal == s.isHorizontal && r.isFinished == s.isFinished
  {
    s.(strokeColor := st.lineUnCompleteColor,
       tintColor := st.lineCompleteColor,
       lineWidth := st.lineStrokeWidth,
       dashPhase := 0.0,
       dashPattern := DashPattern)
  }

  /**
   * One iteration of `layoutHorizontal` / `layoutVertical` on marker `i`
   * of `n`, in a `width` x `height` container.
   */
  function LayoutMarker(m: Marker, i: int, n: int, width: real, height: real, st: Style): (r: Marker)
    ensures r.step == i + 1
    ensures r.isFinished == m.isFinished && r.isCurrent == m.isCurrent && r.transform == m.transform
  {
    var frame :=
      if IsHorizontal(st.direction) then MarkerFrameH(i, n, width, height, st.circleRadius, st.lineMargin)
      else MarkerFrameV(i, n, width, height, st.circleRadius, st.lineMargin);
    StyledMarker(m.(frame := frame), i, st).(step := i + 1)
  }

  /**
   * One iteration of the layout loop on segment `i`.  The vertical layout
   * clears `isHorizontal`; the horizontal one leaves it as it was.
   */
  function LayoutSegment(s: Segment, i: int, n: int, width: real, height: real, st: Style): (r: Segment)
    ensures r.isFinished == s.isFinished
    ensures IsHorizontal(st.direction) ==> r.isHorizontal == s.isHorizontal
    ensures !IsHorizontal(st.direction) ==> !r.isHorizontal
  {
    if IsHorizontal(st.direction) then
      StyledSegment(s.(frame := SegmentFrameH(i, n, width, height, st.circleRadius, st.lineMargin, st.lineStrokeWidth)), st)
    else
      StyledSegment(s.(frame := SegmentFrameV(i, n, width, height, st.circleRadius, st.lineMargin, st.lineStrokeWidth),
                       isHorizontal := false), st)
  }

  /** Every marker after the layout loop. */
  function LaidOutMarkers(ms: seq<Marker>, n: int, width: real, height: real, st: Style): (r: seq<Marker>)
    ensures |r| == |ms|
  {
    seq(|ms|, i requires 0 <= i < |ms| => LayoutMarker(ms[i], i, n, width, height, st))
  }

  /** Every segment after the layout loop. */
  function LaidOutSegments(ss: seq<Segment>, n: int, width: real, height: real, st: Style): (r: seq<Segment>)
    ensures |r| == |ss|
  {
    seq(|ss|, i requires 0 <= i < |ss| => LayoutSegment(ss[i], i, n, width, height, st))
  }

  /** Every marker after `applyDirection` gave it transform `t`. */
  function DirectedMarkers(ms: seq<Marker>, t: Transform): (r: seq<Marker>)
    ensures |r| == |ms|
  {
    seq(|ms|, i requires 0 <= i < |ms| => ms[i].(transform := t))
  }

  // ---------------------------------------------------------------------
  // The state pass
  // ---------------------------------------------------------------------

  /**
   * Marker `i` after the state pass for `step`.  A passed marker becomes
   * finished and keeps whatever `isCurrent` it had.
   */
  function MarkerAtStep(m: Marker, i: int, step: int): Marker
  {
    if i < step then m.(isFinished := true)
    else if i == step then m.(isFinished := false, isCurrent := true)
    else m.(isFinished := false, isCurrent := false)
  }

  /** Every marker after the state pass for `step`. */
  function MarkersAtStep(ms: seq<Marker>, step: int): (r: seq<Marker>)
    ensures |r| == |ms|
  {
    seq(|ms|, i requires 0 <= i < |ms| => MarkerAtStep(ms[i], i, step))
  }

  /** Every segment after the state pass: segment `j` is finished iff marker `j` has been reached and passed. */
  function SegmentsAtStep(ss: seq<Segment>, step: int): (r: seq<Segment>)
    ensures |r| == |ss|
  {
    seq(|ss|, j requires 0 <= j < |ss| => ss[j].(isFinished := j < step))
  }

  /** Number of markers flagged current. */
  function CountCurrent(ms: seq<Marker>): nat
  {
    if ms == [] then 0
    else CountCurrent(ms[..|ms| - 1]) + (if ms[|ms| - 1].isCurrent then 1 else 0)
  }

  /** Number of segments flagged finished. */
  function CountFinished(ss: seq<Segment>): nat
  {
    if ss == [] then 0
    else CountFinished(ss[..|ss| - 1]) + (if ss[|ss| - 1].isFinished then 1 else 0)
  }

  /** `step` clamped into `[lo, hi]`. */
  function Clamp(step: int, lo: int, hi: int): (r: int)
    requires lo <= hi
    ensures lo <= r <= hi
    ensures lo <= step <= hi ==> r == step
  {
    if step < lo then lo else if step > hi then hi else step
  }

  /**
   * The state of every marker after the pass, index by index: passed
   * markers are finished with `isCurrent` unchanged, the marker at `step`
   * is current and not finished, later markers are neither; nothing but
   * the two flags changes.
   */
  lemma MarkerStates(ms: seq<Marker>, step: int, i: int)
    requires 0 <= i < |ms|
    ensures var r := MarkersAtStep(ms, step)[i];
      && r == ms[i].(isFinished := r.isFinished, isCurrent := r.isCurrent)
      && (i < step ==> r.isFinished && r.isCurrent == ms[i].isCurrent)
      && (i == step ==> !r.isFinished && r.isCurrent)
      && (i > step ==> !r.isFinished && !r.isCurrent)
  {
  }

  /** No marker is current when none was before. */
  lemma {:induction false} NoneCurrent(ms: seq<Marker>)
    requires forall i :: 0 <= i < |ms| ==> !ms[i].isCurrent
    ensures CountCurrent(ms) == 0
  {
    if ms != [] {
      NoneCurrent(ms[..|ms| - 1]);
    }
  }

  /**
   * The number of current markers after the pass: one for the marker at
   * `step` if it exists, plus every stale `isCurrent` among the passed
   * markers, which the pass leaves as it found them.
   */
  lemma {:induction false} CurrentCountAtStep(ms: seq<Marker>, step: int)
    ensures CountCurrent(MarkersAtStep(ms, step))
            == CountCurrent(ms[..Clamp(step, 0, |ms|)]) + (if 0 <= step < |ms| then 1 else 0)
  {
    if ms != [] {
      var k := |ms| - 1;
      var r := MarkersAtStep(ms, step);
      assert r[..k] == MarkersAtStep(ms[..k], step);
      CurrentCountAtStep(ms[..k], step);
      if step > k {
        assert ms[..Clamp(step, 0, |ms|)] == ms;
        assert ms[..k][..Clamp(step, 0, k)] == ms[..k];
        assert r[k].isCurrent == ms[k].isCurrent;
      } else if step >= 0 {
        assert ms[..k][..step] == ms[..step];
      }
    }
  }

  /**
   * Starting from markers none of which is current, exactly one marker is
   * current after the pass when `step` indexes a marker, and none otherwise.
   */
  lemma ExactlyOneCurrentFromCleanStart(ms: seq<Marker>, step: int)
    requires forall i :: 0 <= i < |ms| ==> !ms[i].isCurrent
    ensures CountCurrent(MarkersAtStep(ms, step)) == if 0 <= step < |ms| then 1 else 0
  {
    CurrentCountAtStep(ms, step);
    NoneCurrent(ms[..Clamp(step, 0, |ms|)]);
  }

  /**
   * After the pass no marker is both finished and current exactly when no
   * passed marker was current before it.
   */
  lemma FlagsExclusiveIff(ms: seq<Marker>, step: int)
    ensures (forall i :: 0 <= i < |ms| ==>
               !(MarkersAtStep(ms, step)[i].isFinished && MarkersAtStep(ms, step)[i].isCurrent))
            <==> (forall i :: 0 <= i < |ms| && i < step ==> !ms[i].isCurrent)
  {
    var r := MarkersAtStep(ms, step);
    if forall i :: 0 <= i < |ms| ==> !(r[i].isFinished && r[i].isCurrent) {
      forall i | 0 <= i < |ms| && i < step
        ensures !ms[i].isCurrent
      {
        assert r[i].isFinished && r[i].isCurrent == ms[i].isCurrent;
      }
    }
  }

  /**
   * A forward jump keeps a stale current marker: stepping a fresh
   * three-marker indicator to 0 and then to 2 leaves marker 0 both
   * finished and current, and two markers current.
   */
  lemma StaleCurrentSurvivesForwardJump()
    ensures var r := MarkersAtStep(MarkersAtStep([FreshMarker, FreshMarker, FreshMarker], 0), 2);
      r[0].isFinished && r[0].isCurrent && CountCurrent(r) == 2
  {
    var ms := [FreshMarker, FreshMarker, FreshMarker];
    var r := MarkersAtStep(MarkersAtStep(ms, 0), 2);
    assert r[..3 - 1] == r[..2];
    assert r[..2][..2 - 1] == [r[0]];
    assert [r[0]][..1 - 1] == [];
    assert CountCurrent([r[0]]) == 1;
    assert CountCurrent(r[..2]) == 1;
  }

  /** The number of finished segments after the pass is `step` clamped to the segment count. */
  lemma {:induction false} FinishedSegmentCount(ss: seq<Segment>, step: int)
    ensures CountFinished(SegmentsAtStep(ss, step)) == Clamp(step, 0, |ss|)
  {
    if ss != [] {
      var k := |ss| - 1;
      assert SegmentsAtStep(ss, step)[..k] == SegmentsAtStep(ss[..k], step);
      FinishedSegmentCount(ss[..k], step);
    }
  }

  /** Running the state pass twice with the same step changes nothing more. */
  lemma StatePassIdempotent(ms: seq<Marker>, ss: seq<Segment>, step: int)
    ensures MarkersAtStep(MarkersAtStep(ms, step), step) == MarkersAtStep(ms, step)
    ensures SegmentsAtStep(SegmentsAtStep(ss, step), step) == SegmentsAtStep(ss, step)
  {
  }

  /** Running the layout pass twice with the same inputs changes nothing more. */
  lemma LayoutPassIdempotent(ms: seq<Marker>, ss: seq<Segment>, n: int, width: real, height: real, st: Style)
    ensures LaidOutMarkers(LaidOutMarkers(ms, n, width, height, st), n, width, height, st)
            == LaidOutMarkers(ms, n, width, height, st)
    ensures LaidOutSegments(LaidOutSegments(ss, n, width, height, st), n, width, height, st)
            == LaidOutSegments(ss, n, width, height, st)
  {
  }

  /**
   * Layout, direction and state passes write disjoint fields, so any
   * two of them give the same records in either order.
   */
  lemma PassesCommute(ms: seq<Marker>, ss: seq<Segment>, n: int, width: real, height: real, st: Style, t: Transform, step: int)
    ensures MarkersAtStep(DirectedMarkers(LaidOutMarkers(ms, n, width, height, st), t), step)
            == DirectedMarkers(LaidOutMarkers(MarkersAtStep(ms, step), n, width, height, st), t)
    ensures SegmentsAtStep(LaidOutSegments(ss, n, width, height, st), step)
            == LaidOutSegments(SegmentsAtStep(ss, step), n, width, height, st)
    ensures DirectedMarkers(LaidOutMarkers(ms, n, width, height, st), t)
            == LaidOutMarkers(DirectedMarkers(ms, t), n, width, height, st)
  {
  }

  /**
   * Reversed directions lay out exactly as their forward counterparts;
   * only the transform tag given afterwards differs.
   */
  lemma ReversedDirectionSameFrames(ms: seq<Marker>, ss: seq<Segment>, n: int, width: real, height: real, st: Style)
    ensures LaidOutMarkers(ms, n, width, height, st.(direction := RightToLeft))
            == LaidOutMarkers(ms, n, width, height, st.(direction := LeftToRight))
    ensures LaidOutSegments(ss, n, width, height, st.(direction := RightToLeft))
            == LaidOutSegments(ss, n, width, height, st.(direction := LeftToRight))
    ensures LaidOutMarkers(ms, n, width, height, st.(direction := BottomToTop))
            == LaidOutMarkers(ms, n, width, height, st.(direction := TopToBottom))
    ensures LaidOutSegments(ss, n, width, height, st.(direction := BottomToTop))
            == LaidOutSegments(ss, n, width, height, st.(direction := TopToBottom))
  {
  }

  /**
   * With the initial step hidden, marker 0 is drawn in `Clear` whatever
   * the configured colours, yet it keeps its frame and its state.
   */
  lemma HiddenInitialMarker(ms: seq<Marker>, n: int, width: real, height: real, st: Style, step: int)
    requires |ms| > 0 && !st.showInitialStep
    ensures var m := LaidOutMarkers(ms, n, width, height, st)[0];
      && m.defaultColor == Clear && m.tintColor == Clear
      && m.isFinished == ms[0].isFinished && m.isCurrent == ms[0].isCurrent
    ensures forall i :: 1 <= i < |ms| ==>
      && LaidOutMarkers(ms, n, width, height, st)[i].defaultColor == st.circleUnCompleteColor
      && LaidOutMarkers(ms, n, width, height, st)[i].tintColor == st.circleCompleteColor
  {
  }

  // ---------------------------------------------------------------------
  // A full rebuild
  // ---------------------------------------------------------------------

  function FreshMarkers(n: nat): (r: seq<Marker>)
    ensures |r| == n && forall i :: 0 <= i < n ==> r[i] == FreshMarker
  {
    seq(n, _ => FreshMarker)
  }

  function FreshSegments(n: nat): (r: seq<Segment>)
    ensures |r| == n && forall i :: 0 <= i < n ==> r[i] == FreshSegment
  {
    seq(n, _ => FreshSegment)
  }

  /** The markers `createSteps` leaves for `n > 0` steps. */
  function RebuiltMarkers(n: nat, width: real, height: real, st: Style, step: int): seq<Marker>
  {
    MarkersAtStep(DirectedMarkers(LaidOutMarkers(FreshMarkers(n), n, width, height, st),
                                  DirectionTransform(st.direction)), step)
  }

  /** The segments `createSteps` leaves for `n > 0` steps. */
  function RebuiltSegments(n: nat, width: real, height: real, st: Style, step: int): seq<Segment>
    requires n > 0
  {
    SegmentsAtStep(LaidOutSegments(FreshSegments(n - 1), n, width, height, st), step)
  }

  /**
   * After a rebuild of `n > 0` steps there are `n` markers and `n - 1`
   * segments; marker `i` shows step `i + 1`, is finished iff `i < step`
   * and current iff `i == step`; segment `j` is finished iff `j < step`
   * and horizontal iff the direction is; every marker carries the
   * direction's transform; and exactly one marker is current iff `step`
   * indexes a marker.
   */
  lemma RebuildState(n: nat, width: real, height: real, st: Style, step: int)
    requires n > 0
    ensures |RebuiltMarkers(n, width, height, st, step)| == n
    ensures |RebuiltSegments(n, width, height, st, step)| == n - 1
    ensures forall i :: 0 <= i < n ==>
      var m := RebuiltMarkers(n, width, height, st, step)[i];
      && m.step == i + 1
      && (m.isFinished <==> i < step)
      && (m.isCurrent <==> i == step)
      && m.transform == DirectionTransform(st.direction)
    ensures forall j :: 0 <= j < n - 1 ==>
      var s := RebuiltSegments(n, width, height, st, step)[j];
      && (s.isFinished <==> j < step)
      && (s.isHorizontal <==> IsHorizontal(st.direction))
    ensures CountCurrent(RebuiltMarkers(n, width, height, st, step)) == if 0 <= step < n then 1 else 0
    ensures CountFinished(RebuiltSegments(n, width, height, st, step)) == Clamp(step, 0, n - 1)
  {
    var laid := DirectedMarkers(LaidOutMarkers(FreshMarkers(n), n, width, height, st),
                                DirectionTransform(st.direction));
    ExactlyOneCurrentFromCleanStart(laid, step);
    FinishedSegmentCount(LaidOutSegments(FreshSegments(n - 1), n, width, height, st), step);
  }
}
