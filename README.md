# StepIndicator layout and state engine in Dafny

This project models the `StepIndicatorView` controller of the StepIndicator
widget. The widget draws a row or column of circular step markers, with one
straight segment between each two neighbours. It lays them out in one of four
directions, and a single integer `currentStep` decides which markers are
finished, which one is current and which segments are finished.

The model has four modules:

- `Geometry` (`geometry.dfy`) holds the frame arithmetic of the two layout
  loops as pure functions over `real`. Its lemmas cover the edge positions,
  the gaps, the single-step special case, mirror symmetry and the
  vertical/horizontal transposition.
- `Directions` (`direction.dfy`) holds the direction enum, its raw `UInt`
  encoding, the clamping `directionRaw` conversion and the flip applied by
  `applyDirection`. The flip is a tag: identity, half turn about y, or half
  turn about x.
- `Layers` (`layers.dfy`) holds the marker and segment records with the
  fields the controller reads and writes. It gives the effect of the style,
  layout, direction and state passes on each record and on the whole
  sequence, and the lemmas about those passes.
- `StepIndicator` (`step_indicator_view.dfy`) holds the class
  `StepIndicatorView`. Its fields are the configuration plus two `seq`
  fields that stand for `annularLayers` and `horizontalLineLayers`. Its
  methods are `createSteps`, `updateSubLayers`, `layoutHorizontal`,
  `layoutVertical`, `applyDirection`, `setCurrentStep`, `setLineFinished` and
  the property observers. Each one is written as the loop the source runs and
  is proved against the specification functions of `Layers`. The layout loops
  take each frame from the `Geometry` function that holds the source's
  per-index arithmetic.

Two quirks of the source are kept as written:

- For a passed marker (`i < step`), `setCurrentStep` sets `isFinished` but
  never clears `isCurrent`. A stale current marker therefore survives a
  forward jump (`Layers.StaleCurrentSurvivesForwardJump`,
  `Layers.CurrentCountAtStep`).
- `layoutVertical` sets `isHorizontal = false` and `layoutHorizontal` never
  sets it back (`Layers.LayoutSegment`).

Assumptions about code that is not part of this model:

- `AnnularLayer` and `LineLayer` are not part of this model. A new marker is
  taken to be neither finished nor current. A new segment is taken to be
  unfinished and horizontal: `layoutHorizontal` never sets `isHorizontal`, so
  that is the default it relies on. Every other field of a new record is
  overwritten by the first layout.
- The style knobs are grouped into one `Style` value in the class field
  `style`. Each setter replaces one knob and then relays out, as the source's
  `didSet` observers do.
- `bounds` stands for `self.layer.bounds`. The host supplies it through
  `SetFrame`, the overridden `frame` property, and through the constructor's
  `initialBounds`.

## Model

| member | source | states |
|---|---|---|
| `Geometry.StepWidth` | StepIndicator/StepIndicatorView.swift:174-175 | with one step the spacing is 0 and nothing is divided; otherwise `n - 1` spacings plus two margins and a diameter fill the container length |
| `Geometry.MarkerFrameH` | StepIndicator/StepIndicatorView.swift:176-181 | a marker is a 2r x 2r square whose centre sits on the container's horizontal centre line |
| `Geometry.MarkerFrameV` | StepIndicator/StepIndicatorView.swift:198-205 | in the vertical layout a marker is a 2r x 2r square centred on the vertical centre line |
| `Geometry.SegmentFrameH` | StepIndicator/StepIndicatorView.swift:186-190 | a segment is `lineStrokeWidth` thick and centred on the horizontal centre line |
| `Geometry.SegmentFrameV` | StepIndicator/StepIndicatorView.swift:210-215 | in the vertical layout a segment is `lineStrokeWidth` wide and centred on the vertical centre line |
| `Geometry.SingleMarkerCentred` | StepIndicator/StepIndicatorView.swift:175-180 | with one step the spacing is 0 and the marker is centred along the axis (`W/2 - r`) and across it |
| `Geometry.EndMarkersOnMargins` | StepIndicator/StepIndicatorView.swift:175-180 | with two or more steps the first marker's near edge is at `lineMargin` and the last marker's far edge is at `length - lineMargin` |
| `Geometry.MarkersEvenlySpaced` | StepIndicator/StepIndicatorView.swift:180 | neighbouring markers are exactly one `stepWidth` apart |
| `Geometry.SegmentSpansGap` | StepIndicator/StepIndicatorView.swift:190 | segment `i` starts one margin after marker `i`'s far edge and ends one margin before marker `i+1`'s near edge |
| `Geometry.SegmentLengthNonNegativeIff` | StepIndicator/StepIndicatorView.swift:190 | segment length is unclamped; it is non-negative iff the container length is at least `n * (2r + 2*lineMargin)` |
| `Geometry.MarkerMirror` | StepIndicator/StepIndicatorView.swift:244-251 | flipping the container about its centre line maps marker `i` onto marker `n-1-i`, so a reversed direction reverses the visual order |
| `Geometry.SegmentMirror` | StepIndicator/StepIndicatorView.swift:244-251 | the same flip maps segment `i` onto segment `n-2-i` |
| `Geometry.VerticalIsTransposedHorizontal` | StepIndicator/StepIndicatorView.swift:197-216 | every vertical marker and segment frame is the horizontal one of the transposed container with its axes exchanged |
| `Directions.RawValue` | StepIndicator/StepIndicatorView.swift:12-14 | raw values lie in 0..3 |
| `Directions.FromRawValue` | StepIndicator/StepIndicatorView.swift:12-14 | the failable initializer succeeds exactly on 0..3 and inverts `rawValue` there |
| `Directions.ClampedDirection` | StepIndicator/StepIndicatorView.swift:115-118 | the setter's conversion yields the direction whose raw value is `v` for `v <= 3` and 0 (`leftToRight`) otherwise |
| `Directions.RawValueRoundTrip` | StepIndicator/StepIndicatorView.swift:111-119 | setting `directionRaw` to a direction's own raw value gives that direction back |
| `Directions.DirectionTransform` | StepIndicator/StepIndicatorView.swift:244-264 | the tag is a y-flip exactly for `rightToLeft`, an x-flip exactly for `bottomToTop`, and identity for the other two |
| `Directions.FlipFollowsLayoutAxis` | StepIndicator/StepIndicatorView.swift:162-169 | a y-flip happens only with the horizontal layout and an x-flip only with the vertical one |
| `Layers.StyledMarker` | StepIndicator/StepIndicatorView.swift:223-234 | marker styling never touches the frame, the step number, the transform or the `isFinished`/`isCurrent` flags |
| `Layers.StyledSegment` | StepIndicator/StepIndicatorView.swift:236-242 | segment styling never touches the frame, the orientation or `isFinished` |
| `Layers.LayoutMarker` | StepIndicator/StepIndicatorView.swift:178-184 | one layout iteration sets the marker's `step` to `i + 1` and leaves its flags and transform as they were |
| `Layers.LayoutSegment` | StepIndicator/StepIndicatorView.swift:186-193 | one layout iteration leaves `isFinished`; the vertical layout clears `isHorizontal` and the horizontal layout keeps it |
| `Layers.MarkerStates` | StepIndicator/StepIndicatorView.swift:266-287 | after the state pass a passed marker is finished with `isCurrent` unchanged, the marker at `step` is current and not finished, a later one is neither, and nothing else changes |
| `Layers.CurrentCountAtStep` | StepIndicator/StepIndicatorView.swift:268-283 | the number of current markers after the pass is one for the marker at `step` (if it exists) plus every stale current marker below `step` |
| `Layers.ExactlyOneCurrentFromCleanStart` | StepIndicator/StepIndicatorView.swift:266-287 | from markers none of which is current, exactly one marker is current iff `0 <= step < n`, otherwise none |
| `Layers.FlagsExclusiveIff` | StepIndicator/StepIndicatorView.swift:268-283 | after the pass no marker is both finished and current iff no passed marker was current before |
| `Layers.StaleCurrentSurvivesForwardJump` | StepIndicator/StepIndicatorView.swift:268-273 | stepping three fresh markers to 0 and then to 2 leaves marker 0 both finished and current, with two current markers |
| `Layers.FinishedSegmentCount` | StepIndicator/StepIndicatorView.swift:273-296 | the number of finished segments after the pass is `step` clamped to `[0, n-1]` |
| `Layers.StatePassIdempotent` | StepIndicator/StepIndicatorView.swift:266-296 | a second state pass with the same step changes nothing |
| `Layers.LayoutPassIdempotent` | StepIndicator/StepIndicatorView.swift:172-221 | a second layout pass with the same configuration changes nothing |
| `Layers.PassesCommute` | StepIndicator/StepIndicatorView.swift:155-156 | layout, direction and state passes write disjoint fields: the state pass gives the same records before or after a layout-then-direction relayout, and layout and direction commute with each other |
| `Layers.ReversedDirectionSameFrames` | StepIndicator/StepIndicatorView.swift:162-167 | `rightToLeft` and `bottomToTop` give the same frames and styles as `leftToRight` and `topToBottom`; only the transform differs |
| `Layers.HiddenInitialMarker` | StepIndicator/StepIndicatorView.swift:224-230 | with `showInitialStep` off, marker 0's colours are both clear whatever is configured, and it keeps its flags; every other marker gets the configured colours |
| `Layers.FreshMarkers` | StepIndicator/StepIndicatorView.swift:141-145 | `n` newly created markers |
| `Layers.FreshSegments` | StepIndicator/StepIndicatorView.swift:146-150 | `n` newly created segments |
| `Layers.RebuildState` | StepIndicator/StepIndicatorView.swift:134-156 | after a rebuild of `n > 0` steps there are `n` markers and `n-1` segments; marker `i` shows step `i+1`, is finished iff `i < step`, is current iff `i == step` and carries the direction's transform; segment `j` is finished iff `j < step` and horizontal iff the direction is; exactly one marker is current iff `0 <= step < n` |
| `StepIndicator.StepIndicatorView.constructor` | StepIndicator/StepIndicatorView.swift:20-125 | the declared property defaults, with no records built yet |
| `StepIndicator.StepIndicatorView.CreateSteps` | StepIndicator/StepIndicatorView.swift:128-157 | both arrays are emptied; with `numberOfSteps <= 0` nothing else runs; otherwise the records are those of `Layers.RebuiltMarkers`/`RebuiltSegments` and the container has the bounds and the direction's transform |
| `StepIndicator.StepIndicatorView.UpdateSubLayers` | StepIndicator/StepIndicatorView.swift:159-170 | the container takes the bounds; every record is laid out along the direction's axis and styled; container and markers get the direction's transform |
| `StepIndicator.StepIndicatorView.LayoutHorizontal` | StepIndicator/StepIndicatorView.swift:172-195 | the loop leaves every marker and segment as `Layers.LaidOutMarkers`/`LaidOutSegments` say, with frames from `Geometry` |
| `StepIndicator.StepIndicatorView.LayoutVertical` | StepIndicator/StepIndicatorView.swift:197-221 | the same for the vertical axis, including clearing `isHorizontal` |
| `StepIndicator.StepIndicatorView.ApplyDirection` | StepIndicator/StepIndicatorView.swift:244-264 | the container and every marker get the same transform tag, as given by `Directions.DirectionTransform` |
| `StepIndicator.StepIndicatorView.SetCurrentStep` | StepIndicator/StepIndicatorView.swift:266-288 | the loop leaves markers as `Layers.MarkersAtStep` and segments as `Layers.SegmentsAtStep` say, each segment written through `setLineFinished(index: i-1)` |
| `StepIndicator.StepIndicatorView.SetLineFinished` | StepIndicator/StepIndicatorView.swift:290-296 | a non-negative index sets that one segment's flag; index -1 touches no segment |
| `StepIndicator.StepIndicatorView.SetFrame` | StepIndicator/StepIndicatorView.swift:28-32 | a new frame relays out every record |
| `StepIndicator.StepIndicatorView.SetNumberOfSteps` | StepIndicator/StepIndicatorView.swift:34-38 | setting the step count rebuilds the records from scratch |
| `StepIndicator.StepIndicatorView.SetCurrentStepProperty` | StepIndicator/StepIndicatorView.swift:40-49 | with no markers, or with an unchanged value, no record changes; otherwise exactly one state pass runs and no layout |
| `StepIndicator.StepIndicatorView.DirectionRaw` | StepIndicator/StepIndicatorView.swift:111-114 | the getter returns the raw value of the current direction, which decodes back to it |
| `StepIndicator.StepIndicatorView.SetDirectionRaw` | StepIndicator/StepIndicatorView.swift:115-118 | afterwards the getter returns `v` for `v <= 3` and 0 otherwise, and the view has been relaid out |
| `StepIndicator.StepIndicatorView.SetDirection` | StepIndicator/StepIndicatorView.swift:105-109 | the direction changes and every record is relaid out |
| `StepIndicator.StepIndicatorView.SetDisplayNumbers` | StepIndicator/StepIndicatorView.swift:51-55 | the knob changes and every record is relaid out |
| `StepIndicator.StepIndicatorView.SetCircleRadius` | StepIndicator/StepIndicatorView.swift:57-61 | the knob changes and every record is relaid out |
| `StepIndicator.StepIndicatorView.SetCircleUnCompleteColor` | StepIndicator/StepIndicatorView.swift:63-67 | the knob changes and every record is relaid out |
| `StepIndicator.StepIndicatorView.SetCircleCompleteColor` | StepIndicator/StepIndicatorView.swift:69-73 | the knob changes and every record is relaid out |
| `StepIndicator.StepIndicatorView.SetCircleStrokeWidth` | StepIndicator/StepIndicatorView.swift:75-79 | the knob changes and every record is relaid out |
| `StepIndicator.StepIndicatorView.SetLineUnCompleteColor` | StepIndicator/StepIndicatorView.swift:81-85 | the knob changes and every record is relaid out |
| `StepIndicator.StepIndicatorView.SetLineCompleteColor` | StepIndicator/StepIndicatorView.swift:87-91 | the knob changes and every record is relaid out |
| `StepIndicator.StepIndicatorView.SetLineMargin` | StepIndicator/StepIndicatorView.swift:93-97 | the knob changes and every record is relaid out |
| `StepIndicator.StepIndicatorView.SetLineStrokeWidth` | StepIndicator/StepIndicatorView.swift:99-103 | the knob changes and every record is relaid out |
| `StepIndicator.StepIndicatorView.SetShowInitialStep` | StepIndicator/StepIndicatorView.swift:121-125 | the knob changes and every record is relaid out |

## Left out

- The layer tree (`addSublayer`, `removeFromSuperlayer`, lines 129-133, 143, 148 and 153) is UIKit plumbing. Only the two arrays are modelled.
- Marker and segment records are values in `seq` fields. Object identity and aliasing of the `AnnularLayer`/`LineLayer` instances are not captured.
- Real `CATransform3D` matrices and `CGFloat.pi` are foreign floating-point 3-D maths. A three-valued transform tag stands in for them.
- Drawing is left out: what `AnnularLayer`/`LineLayer` draw and what `updateStatus()` does. Those types are not part of this model, and `updateStatus()` is treated as a no-op.
- `UIColor`/`cgColor` values become opaque colour tokens, with `Clear` as the transparent one.
- `CGFloat` arithmetic is modelled with `real`. IEEE rounding is not modelled.
- The `@IBDesignable`/`@IBInspectable` design-time hooks are left out. So is `UIView`'s own handling of `frame` beyond "sets the bounds and triggers `updateSubLayers`"; the host passes the new bounds to `SetFrame`.
- `lineDashPattern` is recorded as `[5, 1]`. Its effect on drawing is not modelled.
- `StepIndicator.StepIndicatorView.LayoutHorizontal`, `LayoutVertical`: Swift's 64-bit `Int` is not modelled; `int` is unbounded. So the overflow trap of `numberOfSteps - 1` (lines 175 and 199) is lost when `numberOfSteps` is `Int.min`. `createSteps` returns early for that value (lines 137-139), but the next relayout (any style setter or a new frame) traps in the source, while in the model it returns normally.
