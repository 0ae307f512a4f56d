/**
 * The `StepIndicatorView` controller: configuration fields, the two
 * arrays of marker and segment records it keeps, and the passes that
 * rebuild, lay out, orient and update them.  Layer-tree plumbing
 * (adding and removing sublayers) and drawing are not modelled.
 */
module StepIndicator {
  import opened Geometry
  import opened Directions
  import opened Layers

  class StepIndicatorView {
    var numberOfSteps: int
    var currentStep: int
    /** The style properties; each of them relays out when set. */
    var style: Style
    /** The bounds of the view's own layer, supplied by the host. */
    var bounds: Rect
    /** `containerLayer.frame` and `containerLayer.transform`. */
    var container: Rect
    var containerTransform: Transform
    /** `annularLayers` and `horizontalLineLayers`. */
    var markers: seq<Marker>
    var segments: seq<Segment>

    /**
     * Either no step has been built yet, or there is one marker per step
     * and one segment between each two neighbouring markers.
     */
    ghost predicate Valid()
      reads this
    {
      || (markers == [] && segments == [])
      || (numberOfSteps >= 1 && |markers| == numberOfSteps && |segments| == numberOfSteps - 1)
    }

    /**
     * The state after a full relayout of the records `ms` and `ss` with
     * the current configuration: the container takes the bounds and the
     * direction's transform, every record is laid out and styled, and
     * every marker gets the same transform as the container.
     */
    ghost predicate Relaid(ms: seq<Marker>, ss: seq<Segment>)
      reads this
    {
      && container == bounds
      && containerTransform == DirectionTransform(style.direction)
      && markers == DirectedMarkers(LaidOutMarkers(ms, numberOfSteps, bounds.width, bounds.height, style),
                                    containerTransform)
      && segments == LaidOutSegments(ss, numberOfSteps, bounds.width, bounds.height, style)
    }

    /**
     * A view with the declared property values.  Property initial values
     * do not run their observers, so no step is built yet.
     */
    constructor (initialBounds: Rect)
      ensures Valid()
      ensures numberOfSteps == 5 && currentStep == -1 && style == DefaultStyle && bounds == initialBounds
      ensures markers == [] && segments == []
      ensures container == Rect(0.0, 0.0, 0.0, 0.0) && containerTransform == Identity
    {
      numberOfSteps := 5;
      currentStep := -1;
      style := DefaultStyle;
      bounds := initialBounds;
      container := Rect(0.0, 0.0, 0.0, 0.0);
      containerTransform := Identity;
      markers := [];
      segments := [];
    }

    // -------------------------------------------------------------------
    // Passes
    // -------------------------------------------------------------------

    /**
     * `createSteps`: discards every record and, for a positive step
     * count, builds one fresh marker per step and one fresh segment
     * between neighbours, lays them out and applies the current step.
     */
    method CreateSteps()
      modifies this`markers, this`segments, this`container, this`containerTransform
      ensures Valid()
      ensures numberOfSteps <= 0 ==>
        && markers == [] && segments == []
        && container == old(container) && containerTransform == old(containerTransform)
      ensures numberOfSteps > 0 ==>
        && markers == RebuiltMarkers(numberOfSteps, bounds.width, bounds.height, style, currentStep)
        && segments == RebuiltSegments(numberOfSteps, bounds.width, bounds.height, style, currentStep)
        && container == bounds
        && containerTransform == DirectionTransform(style.direction)
    {
      markers := [];
      segments := [];
      if numberOfSteps <= 0 {
        return;
      }
      var i := 0;
      while i < numberOfSteps
        invariant 0 <= i <= numberOfSteps
        invariant markers == FreshMarkers(i)
        invariant segments == FreshSegments(if i < numberOfSteps then i else numberOfSteps - 1)
      {
        markers := markers + [FreshMarker];
        if i < numberOfSteps - 1 {
          segments := segments + [FreshSegment];
        }
        i := i + 1;
      }
      UpdateSubLayers();
      SetCurrentStep(currentStep);
    }

    /** `updateSubLayers`: resizes the container, lays out along the direction's axis, then orients. */
    method UpdateSubLayers()
      requires Valid()
      modifies this`markers, this`segments, this`container, this`containerTransform
      ensures Valid()
      ensures Relaid(old(markers), old(segments))
    {
      container := bounds;
      if style.direction == LeftToRight || style.direction == RightToLeft {
        LayoutHorizontal();
      } else {
        LayoutVertical();
      }
      ApplyDirection();
    }

    /** `layoutHorizontal`: every marker and segment frame along the x axis, with style applied. */
    method LayoutHorizontal()
      requires Valid() && IsHorizontal(style.direction)
      modifies this`markers, this`segments
      ensures markers == LaidOutMarkers(old(markers), numberOfSteps, container.width, container.height, style)
      ensures segments == LaidOutSegments(old(segments), numberOfSteps, container.width, container.height, style)
    {
      var n, width, height := numberOfSteps, container.width, container.height;
      var radius, margin, stroke := style.circleRadius, style.lineMargin, style.lineStrokeWidth;
      var i := 0;
      while i < |markers|
        invariant 0 <= i <= |markers| == |old(markers)|
        invariant |segments| == |old(segments)|
        invariant forall k :: 0 <= k < i ==> markers[k] == LayoutMarker(old(markers)[k], k, n, width, height, style)
        invariant forall k :: i <= k < |markers| ==> markers[k] == old(markers)[k]
        invariant forall k :: 0 <= k < i && k < |segments| ==>
                    segments[k] == LayoutSegment(old(segments)[k], k, n, width, height, style)
        invariant forall k :: i <= k < |segments| ==> segments[k] == old(segments)[k]
      {
        var marker := markers[i].(frame := MarkerFrameH(i, n, width, height, radius, margin));
        marker := StyledMarker(marker, i, style);
        markers := markers[i := marker.(step := i + 1)];
        if i < n - 1 {
          var line := segments[i].(frame := SegmentFrameH(i, n, width, height, radius, margin, stroke));
          segments := segments[i := StyledSegment(line, style)];
        }
        i := i + 1;
      }
    }

    /** `layoutVertical`: the same along the y axis; it also marks every segment as not horizontal. */
    method LayoutVertical()
      requires Valid() && !IsHorizontal(style.direction)
      modifies this`markers, this`segments
      ensures markers == LaidOutMarkers(old(markers), numberOfSteps, container.width, container.height, style)
      ensures segments == LaidOutSegments(old(segments), numberOfSteps, container.width, container.height, style)
    {
      var n, width, height := numberOfSteps, container.width, container.height;
      var radius, margin, stroke := style.circleRadius, style.lineMargin, style.lineStrokeWidth;
      var i := 0;
      while i < |markers|
        invariant 0 <= i <= |markers| == |old(markers)|
        invariant |segments| == |old(segments)|
        invariant forall k :: 0 <= k < i ==> markers[k] == LayoutMarker(old(markers)[k], k, n, width, height, style)
        invariant forall k :: i <= k < |markers| ==> markers[k] == old(markers)[k]
        invariant forall k :: 0 <= k < i && k < |segments| ==>
                    segments[k] == LayoutSegment(old(segments)[k], k, n, width, height, style)
        invariant forall k :: i <= k < |segments| ==> segments[k] == old(segments)[k]
      {
        var marker := markers[i].(frame := MarkerFrameV(i, n, width, height, radius, margin));
        marker := StyledMarker(marker, i, style);
        markers := markers[i := marker.(step := i + 1)];
        if i < n - 1 {
          var line := segments[i].(frame := SegmentFrameV(i, n, width, height, radius, margin, stroke));
          line := line.(isHorizontal := false);
          segments := segments[i := StyledSegment(line, style)];
        }
        i := i + 1;
      }
    }

    /** `applyDirection`: one transform for the container and the same one for every marker. */
    method ApplyDirection()
      modifies this`markers, this`containerTransform
      ensures containerTransform == DirectionTransform(style.direction)
      ensures markers == DirectedMarkers(old(markers), containerTransform)
    {
      var rotation: Transform;
      match style.direction {
        case RightToLeft => rotation := FlipAboutY;
        case BottomToTop => rotation := FlipAboutX;
        case _ => rotation := Identity;
      }
      containerTransform := rotation;
      var i := 0;
      while i < |markers|
        invariant 0 <= i <= |markers| == |old(markers)|
        invariant containerTransform == rotation
        invariant forall k :: 0 <= k < i ==> markers[k] == old(markers)[k].(transform := rotation)
        invariant forall k :: i <= k < |markers| ==> markers[k] == old(markers)[k]
      {
        markers := markers[i := markers[i].(transform := rotation)];
        i := i + 1;
      }
    }

    /**
     * `setCurrentStep`: one pass over the steps; iteration `i` sets
     * marker `i`'s flags and, through `setLineFinished`, the flag of the
     * segment leading into marker `i`.
     */
    method SetCurrentStep(step: int)
      requires |markers| == numberOfSteps && |segments| == numberOfSteps - 1
      modifies this`markers, this`segments
      ensures markers == MarkersAtStep(old(markers), step)
      ensures segments == SegmentsAtStep(old(segments), step)
    {
      var i := 0;
      while i < numberOfSteps
        invariant 0 <= i <= numberOfSteps
        invariant |markers| == numberOfSteps && |segments| == numberOfSteps - 1
        invariant forall k :: 0 <= k < i ==> markers[k] == MarkerAtStep(old(markers)[k], k, step)
        invariant forall k :: i <= k < numberOfSteps ==> markers[k] == old(markers)[k]
        invariant forall j :: 0 <= j < |segments| && j + 1 < i ==>
                    segments[j] == old(segments)[j].(isFinished := j < step)
        invariant forall j :: 0 <= j < |segments| && j + 1 >= i ==> segments[j] == old(segments)[j]
      {
        if i < step {
          if !markers[i].isFinished {
            markers := markers[i := markers[i].(isFinished := true)];
          }
          SetLineFinished(true, i - 1);
        } else if i == step {
          markers := markers[i := markers[i].(isFinished := false, isCurrent := true)];
          SetLineFinished(true, i - 1);
        } else {
          markers := markers[i := markers[i].(isFinished := false, isCurrent := false)];
          SetLineFinished(false, i - 1);
        }
        i := i + 1;
      }
    }

    /** `setLineFinished`: sets one segment's flag; a negative index touches no segment. */
    method SetLineFinished(isFinished: bool, index: int)
      requires index < |segments|
      modifies this`segments
      ensures index < 0 ==> segments == old(segments)
      ensures 0 <= index ==> segments == old(segments)[index := old(segments)[index].(isFinished := isFinished)]
    {
      if index >= 0 {
        if segments[index].isFinished != isFinished {
          segments := segments[index := segments[index].(isFinished := isFinished)];
        }
      }
    }

    // -------------------------------------------------------------------
    // Property setters and their observers
    // -------------------------------------------------------------------

    /** Setting `frame` relays out. */
    method SetFrame(newBounds: Rect)
      requires Valid()
      modifies this`bounds, this`markers, this`segments, this`container, this`containerTransform
      ensures Valid() && bounds == newBounds
      ensures Relaid(old(markers), old(segments))
    {
      bounds := newBounds;
      UpdateSubLayers();
    }

    /** Setting `numberOfSteps` rebuilds every record. */
    method SetNumberOfSteps(n: int)
      modifies this`numberOfSteps, this`markers, this`segments, this`container, this`containerTransform
      ensures Valid() && numberOfSteps == n
      ensures n <= 0 ==>
        && markers == [] && segments == []
        && container == old(container) && containerTransform == old(containerTransform)
      ensures n > 0 ==>
        && markers == RebuiltMarkers(n, bounds.width, bounds.height, style, currentStep)
        && segments == RebuiltSegments(n, bounds.width, bounds.height, style, currentStep)
        && container == bounds
        && containerTransform == DirectionTransform(style.direction)
    {
      numberOfSteps := n;
      CreateSteps();
    }

    /**
     * Setting `currentStep` runs one state pass and no layout, and only
     * when some marker exists and the value actually changed.
     */
    method SetCurrentStepProperty(value: int)
      requires Valid()
      modifies this`currentStep, this`markers, this`segments
      ensures Valid() && currentStep == value
      ensures old(markers) == [] || value == old(currentStep) ==>
        markers == old(markers) && segments == old(segments)
      ensures old(markers) != [] && value != old(currentStep) ==>
        markers == MarkersAtStep(old(markers), value) && segments == SegmentsAtStep(old(segments), value)
    {
      var oldValue := currentStep;
      currentStep := value;
      if |markers| <= 0 {
        return;
      }
      if oldValue != currentStep {
        SetCurrentStep(currentStep);
      }
    }

    /** The `directionRaw` getter. */
    function DirectionRaw(): (raw: nat)
      reads this
      ensures raw <= 3
      ensures FromRawValue(raw) == Some(style.direction)
    {
      RawValue(style.direction)
    }

    /** The `directionRaw` setter: a value above 3 selects left-to-right. */
    method SetDirectionRaw(raw: nat)
      requires Valid()
      modifies this`style, this`markers, this`segments, this`container, this`containerTransform
      ensures Valid() && style == old(style).(direction := ClampedDirection(raw))
      ensures DirectionRaw() == if raw > 3 then 0 else raw
      ensures Relaid(old(markers), old(segments))
    {
      var value := if raw > 3 then 0 else raw;
      SetDirection(FromRawValue(value).value);
    }

    method SetDirection(value: Direction)
      requires Valid()
      modifies this`style, this`markers, this`segments, this`container, this`containerTransform
      ensures Valid() && style == old(style).(direction := value)
      ensures Relaid(old(markers), old(segments))
    {
      style := style.(direction := value);
      UpdateSubLayers();
    }

    method SetDisplayNumbers(value: bool)
      requires Valid()
      modifies this`style, this`markers, this`segments, this`container, this`containerTransform
      ensures Valid() && style == old(style).(displayNumbers := value)
      ensures Relaid(old(markers), old(segments))
    {
      style := style.(displayNumbers := value);
      UpdateSubLayers();
    }

    method SetCircleRadius(value: real)
      requires Valid()
      modifies this`style, this`markers, this`segments, this`container, this`containerTransform
      ensures Valid() && style == old(style).(circleRadius := value)
      ensures Relaid(old(markers), old(segments))
    {
      style := style.(circleRadius := value);
      UpdateSubLayers();
    }

    method SetCircleUnCompleteColor(value: Color)
      requires Valid()
      modifies this`style, this`markers, this`segments, this`container, this`containerTransform
      ensures Valid() && style == old(style).(circleUnCompleteColor := value)
      ensures Relaid(old(markers), old(segments))
    {
      style := style.(circleUnCompleteColor := value);
      UpdateSubLayers();
    }

    method SetCircleCompleteColor(value: Color)
      requires Valid()
      modifies this`style, this`markers, this`segments, this`container, this`containerTransform
      ensures Valid() && style == old(style).(circleCompleteColor := value)
      ensures Relaid(old(markers), old(segments))
    {
      style := style.(circleCompleteColor := value);
      UpdateSubLayers();
    }

    method SetCircleStrokeWidth(value: real)
      requires Valid()
      modifies this`style, this`markers, this`segments, this`container, this`containerTransform
      ensures Valid() && style == old(style).(circleStrokeWidth := value)
      ensures Relaid(old(markers), old(segments))
    {
      style := style.(circleStrokeWidth := value);
      UpdateSubLayers();
    }

    method SetLineUnCompleteColor(value: Color)
      requires Valid()
      modifies this`style, this`markers, this`segments, this`container, this`containerTransform
      ensures Valid() && style == old(style).(lineUnCompleteColor := value)
      ensures Relaid(old(markers), old(segments))
    {
      style := style.(lineUnCompleteColor := value);
      UpdateSubLayers();
    }

    method SetLineCompleteColor(value: Color)
      requires Valid()
      modifies this`style, this`markers, this`segments, this`container, this`containerTransform
      ensures Valid() && style == old(style).(lineCompleteColor := value)
      ensures Relaid(old(markers), old(segments))
    {
      style := style.(lineCompleteColor := value);
      UpdateSubLayers();
    }

    method SetLineMargin(value: real)
      requires Valid()
      modifies this`style, this`markers, this`segments, this`container, this`containerTransform
      ensures Valid() && style == old(style).(lineMargin := value)
      ensures Relaid(old(markers), old(segments))
    {
      style := style.(lineMargin := value);
      UpdateSubLayers();
    }

    method SetLineStrokeWidth(value: real)
      requires Valid()
      modifies this`style, this`markers, this`segments, this`container, this`containerTransform
      ensures Valid() && style == old(style).(lineStrokeWidth := value)
      ensures Relaid(old(markers), old(segments))
    {
      style := style.(lineStrokeWidth := value);
      UpdateSubLayers();
    }

    method SetShowInitialStep(value: bool)
      requires Valid()
      modifies this`style, this`markers, this`segments, this`container, this`containerTransform
      ensures Valid() && style == old(style).(showInitialStep := value)
      ensures Relaid(old(markers), old(segments))
    {
      style := style.(showInitialStep := value);
      UpdateSubLayers();
    }
  }
}
