/** The `DoughNutChart` view: its configuration, the state each layout pass
    recomputes, the selected segment, and the operations that change them. */
module Chart {
  import opened Wrappers
  import opened Colors
  import opened Geometry
  import opened Layout
  import opened HitTesting
  import opened Render

  const NotEnoughColorsDefined: string := "Colors not defined for all data values."
  const DataZeroError: string := ""

  /** A tap or touch, already reduced to its distance from the chart centre
      (the square root of the squared offsets) and the raw four-quadrant
      arctangent of its offset (in [-pi, pi]). */
  datatype Touch = Touch(distance: real, angle: real)

  class DoughNutChart {
    // Configuration, set by the storyboard or the host.
    var doughNutWidth: real
    var segment1Color: Color
    var segment2Color: Color
    var segment3Color: Color
    var segment4Color: Color
    var segment5Color: Color
    var labelMargin: real
    var bottomMargin: real
    var labelFontSize: real
    var segmentDataArray: seq<real>
    var segmentColorsCustom: Option<seq<Color>>

    // The listener: whether one is attached, and every index it was sent.
    var hasDelegate: bool
    var notifications: seq<int>

    // State of the last layout pass.
    var segmentColors: seq<Color>
    var centerPoint: Point
    var doughNutMidRadius: real
    var doughNutOuterRadius: real
    var minRadiansNeededForLabels: real
    var pushOutLabelMargin: real
    var errorLabelText: string
    var errorLabelHidden: bool
    var segmentGeometricValues: seq<Segment>

    /** -1, or the index the last tap resolved to. */
    var segmentSelected: int
    /** A redraw has been requested (`setNeedsDisplay`). */
    var needsDisplay: bool

    /** The records always carry their own position as index. */
    ghost predicate Valid()
      reads this
    {
      Indexed(segmentGeometricValues)
    }

    /** The five storyboard colours, in order. */
    function DefaultColors(): (pool: seq<Color>)
      reads this
      ensures |pool| == 5
      ensures pool == [segment1Color, segment2Color, segment3Color, segment4Color, segment5Color]
    {
      [segment1Color, segment2Color, segment3Color, segment4Color, segment5Color]
    }

    /** The property initialisers, with the error label as `awakeFromNib` leaves it. */
    constructor ()
      ensures Valid()
      ensures doughNutWidth == 0.0 && labelMargin == 30.0 && bottomMargin == 20.0 && labelFontSize == 15.0
      ensures DefaultColors() == [RedColor, RedColor, RedColor, RedColor, RedColor]
      ensures segmentDataArray == [23.0, 45.0, 34.0] && segmentColorsCustom == None
      ensures !hasDelegate && notifications == []
      ensures segmentColors == [] && segmentGeometricValues == []
      ensures centerPoint == Point(0.0, 0.0) && doughNutMidRadius == 0.0 && doughNutOuterRadius == 0.0
      ensures minRadiansNeededForLabels == 0.0 && pushOutLabelMargin == 0.0
      ensures errorLabelText == "" && errorLabelHidden
      ensures segmentSelected == -1 && !needsDisplay
    {
      doughNutWidth := 0.0;
      segment1Color, segment2Color, segment3Color, segment4Color, segment5Color :=
        RedColor, RedColor, RedColor, RedColor, RedColor;
      labelMargin := 30.0;
      bottomMargin := 20.0;
      labelFontSize := 15.0;
      segmentDataArray := [23.0, 45.0, 34.0];
      segmentColorsCustom := None;
      hasDelegate := false;
      notifications := [];
      segmentColors := [];
      centerPoint := Point(0.0, 0.0);
      doughNutMidRadius := 0.0;
      doughNutOuterRadius := 0.0;
      minRadiansNeededForLabels := 0.0;
      pushOutLabelMargin := 0.0;
      errorLabelText := "";
      errorLabelHidden := true;
      segmentGeometricValues := [];
      segmentSelected := -1;
      needsDisplay := false;
    }

    /** The custom colours are used: they exist and cover every data value. */
    predicate CustomColorsCover()
      reads this
    {
      segmentColorsCustom.Some? && |segmentColorsCustom.value| >= |segmentDataArray|
    }

    /** The geometry every layout pass for a `rectWidth` by `rectHeight` view
        recomputes, whatever its outcome. `minRadiansForLabels` is the angle
        the platform's arcsine gives for half the label font size over the
        label radius, `asin(pushOutLabelMargin / (outer + labelMargin / 2))`. */
    predicate GeometryDerived(rectWidth: real, rectHeight: real, minRadiansForLabels: real)
      reads this`centerPoint, this`bottomMargin, this`doughNutOuterRadius, this`labelMargin, this`doughNutWidth
      reads this`doughNutMidRadius, this`pushOutLabelMargin, this`labelFontSize, this`minRadiansNeededForLabels
    {
      && centerPoint == Point(rectWidth / 2.0, rectHeight - bottomMargin)
      && doughNutOuterRadius == OuterRadius(rectWidth, labelMargin)
      && doughNutWidth == doughNutOuterRadius * DoughNutWidthFactor
      && doughNutMidRadius == doughNutOuterRadius - doughNutWidth / 2.0
      && pushOutLabelMargin == labelFontSize * 0.5
      && minRadiansNeededForLabels == minRadiansForLabels
    }

    /** The error label after a pass with this outcome: hidden and empty on
        success, otherwise showing the message of the first check that failed. */
    predicate ErrorLabelShows(outcome: Result<seq<Color>, LayoutError>)
      reads this
    {
      && errorLabelHidden == outcome.Success?
      && errorLabelText == (match outcome
                            case Success(_) => ""
                            case Failure(NotEnoughColors) => NotEnoughColorsDefined
                            case Failure(DataSumsToZero) => DataZeroError)
    }

    /** The palette and records a layout pass leaves behind, `ok` being its
        answer: the records are rebuilt on success and kept on failure. */
    twostate predicate SegmentsLaidOut(ok: bool)
      reads this
    {
      && segmentColors == (if CustomColorsCover() then segmentColorsCustom.value else DefaultColors())
      && ok == Validate(segmentDataArray, segmentColorsCustom, DefaultColors()).Success?
      && (ok ==> LaidOut(segmentGeometricValues, segmentDataArray, segmentColors,
                         Sum(segmentDataArray), minRadiansNeededForLabels))
      && (!ok ==> segmentGeometricValues == old(segmentGeometricValues))
    }

    /** The radii, centre and label threshold a layout pass derives from the
        view size before it looks at the data. */
    method DeriveGeometry(rectWidth: real, rectHeight: real, minRadiansForLabels: real)
      modifies this`centerPoint, this`doughNutOuterRadius, this`doughNutWidth, this`doughNutMidRadius
      modifies this`pushOutLabelMargin, this`minRadiansNeededForLabels
      ensures GeometryDerived(rectWidth, rectHeight, minRadiansForLabels)
    {
      centerPoint := Point(rectWidth / 2.0, rectHeight - bottomMargin);
      doughNutOuterRadius := (rectWidth - (labelMargin * 2.0)) / 2.0;
      doughNutWidth := doughNutOuterRadius * DoughNutWidthFactor;
      doughNutMidRadius := doughNutOuterRadius - doughNutWidth / 2.0;
      pushOutLabelMargin := labelFontSize * 0.5;
      minRadiansNeededForLabels := minRadiansForLabels;
    }

    /** The colour check and then the zero-sum check of a layout pass: pick
        the palette, and set the error label from the first check that fails. */
    method CheckData() returns (ok: bool)
      modifies this`segmentColors, this`errorLabelText, this`errorLabelHidden
      ensures ErrorLabelShows(Validate(segmentDataArray, segmentColorsCustom, DefaultColors()))
      ensures segmentColors == (if CustomColorsCover() then segmentColorsCustom.value else DefaultColors())
      ensures ok == Validate(segmentDataArray, segmentColorsCustom, DefaultColors()).Success?
    {
      segmentColors := [segment1Color, segment2Color, segment3Color, segment4Color, segment5Color];
      ghost var outcome := Validate(segmentDataArray, segmentColorsCustom, DefaultColors());
      if segmentColorsCustom.Some? && |segmentColorsCustom.value| >= |segmentDataArray| {
        segmentColors := segmentColorsCustom.value;
        errorLabelText := "";
        errorLabelHidden := true;
      } else if |segmentColors| < |segmentDataArray| {
        errorLabelText := NotEnoughColorsDefined;
        errorLabelHidden := false;
        assert outcome == Failure(NotEnoughColors);
        return false;
      }
      if Sum(segmentDataArray) == 0.0 {
        errorLabelText := DataZeroError;
        errorLabelHidden := false;
        assert outcome == Failure(DataSumsToZero);
        return false;
      }
      errorLabelText := "";
      errorLabelHidden := true;
      assert outcome == Success(segmentColors);
      return true;
    }

    /** `initializeValues`: derive the radii from the view size, pick the
        palette, reject too few colours and then a zero sum, and otherwise lay
        the segments out over the half circle from pi. */
    method InitializeValues(rectWidth: real, rectHeight: real, minRadiansForLabels: real) returns (ok: bool)
      requires Valid()
      modifies this`centerPoint, this`doughNutOuterRadius, this`doughNutWidth, this`doughNutMidRadius
      modifies this`pushOutLabelMargin, this`minRadiansNeededForLabels, this`segmentColors
      modifies this`errorLabelText, this`errorLabelHidden, this`segmentGeometricValues
      ensures Valid()
      ensures GeometryDerived(rectWidth, rectHeight, minRadiansForLabels)
      ensures ErrorLabelShows(Validate(segmentDataArray, segmentColorsCustom, DefaultColors()))
      ensures SegmentsLaidOut(ok)
    {
      DeriveGeometry(rectWidth, rectHeight, minRadiansForLabels);
      ok := CheckData();
      if ok {
        segmentGeometricValues := BuildSegments(segmentDataArray, segmentColors, Sum(segmentDataArray), minRadiansNeededForLabels);
        LaidOutIsIndexed(segmentGeometricValues, segmentDataArray, segmentColors, Sum(segmentDataArray), minRadiansNeededForLabels);
      }
    }

    /** `drawRect`: run a layout pass and, when it succeeds, draw every record
        with a positive value (the selected one darkened) and the truncated sum
        in the centre. Nothing is drawn when the pass fails. */
    method DrawRect(rectWidth: real, rectHeight: real, minRadiansForLabels: real) returns (frame: Option<Frame>)
      requires Valid()
      modifies this`centerPoint, this`doughNutOuterRadius, this`doughNutWidth, this`doughNutMidRadius
      modifies this`pushOutLabelMargin, this`minRadiansNeededForLabels, this`segmentColors
      modifies this`errorLabelText, this`errorLabelHidden, this`segmentGeometricValues
      ensures Valid()
      ensures GeometryDerived(rectWidth, rectHeight, minRadiansForLabels)
      ensures ErrorLabelShows(Validate(segmentDataArray, segmentColorsCustom, DefaultColors()))
      ensures SegmentsLaidOut(frame.Some?)
      ensures frame.Some? ==>
                && frame.value.segments == DrawPlan(segmentGeometricValues, segmentSelected)
                && frame.value.centerLabel == TruncateToInt(Sum(segmentDataArray))
    {
      var ok := InitializeValues(rectWidth, rectHeight, minRadiansForLabels);
      if !ok {
        return None;
      }
      var draws: seq<SegmentDraw> := [];
      var i := 0;
      while i < |segmentGeometricValues|
        invariant 0 <= i <= |segmentGeometricValues|
        invariant draws == DrawPlan(segmentGeometricValues[..i], segmentSelected)
      {
        var segmentValue := segmentGeometricValues[i];
        assert segmentGeometricValues[..i + 1][..i] == segmentGeometricValues[..i];
        if segmentValue.chartData > 0.0 {
          var segColor := if segmentSelected == segmentValue.index
                          then DarkenColor(segmentValue.segmentColor, ColorDarkenFactor)
                          else segmentValue.segmentColor;
          draws := draws + [SegmentDraw(segmentValue, segColor)];
        }
        i := i + 1;
      }
      assert segmentGeometricValues[..i] == segmentGeometricValues;
      var centerLabelData := TruncateToInt(Sum(segmentDataArray));
      return Some(Frame(draws, centerLabelData));
    }

    /** `segmentTapped`: scan the records for the first whose closed interval
        holds the tap's normalised angle, but only for a tap strictly inside the
        ring band; answer the index that record carries, or -1. */
    method SegmentTapped(tap: Touch) returns (tapped: int)
      ensures tapped == HitTest(segmentGeometricValues, doughNutOuterRadius, doughNutWidth, tap.distance, tap.angle)
      ensures Valid() ==> -1 <= tapped < |segmentGeometricValues|
    {
      var tappedSegment := DefaultSegment;
      var hypot := tap.distance;
      if hypot < doughNutOuterRadius && hypot > doughNutOuterRadius - doughNutWidth {
        var touchPointInRadians := TouchPointRadians(tap.angle);
        var i := 0;
        while i < |segmentGeometricValues|
          invariant 0 <= i <= |segmentGeometricValues|
          invariant tappedSegment == DefaultSegment
          invariant forall j :: 0 <= j < i ==> !Covers(segmentGeometricValues[j], touchPointInRadians)
        {
          var segmentGeometryValue := segmentGeometricValues[i];
          if touchPointInRadians >= segmentGeometryValue.startRadian && touchPointInRadians <= segmentGeometryValue.endRadian {
            tappedSegment := segmentGeometryValue;
            FirstMatchIsUnique(segmentGeometricValues, touchPointInRadians, i);
            break;
          }
          i := i + 1;
        }
      }
      return tappedSegment.index;
    }

    /** `viewTapped`: the tap's hit-test result becomes the selection, a redraw
        is requested, and an attached listener is sent the same value. */
    method ViewTapped(tap: Touch)
      modifies this`segmentSelected, this`needsDisplay, this`notifications
      ensures segmentSelected == HitTest(segmentGeometricValues, doughNutOuterRadius, doughNutWidth, tap.distance, tap.angle)
      ensures needsDisplay
      ensures notifications == if hasDelegate then old(notifications) + [segmentSelected] else old(notifications)
    {
      segmentSelected := SegmentTapped(tap);
      needsDisplay := true;
      if hasDelegate {
        notifications := notifications + [segmentSelected];
      }
    }

    /** `touchesBegan`: the first touch, if any, selects like a tap but nobody
        is notified; with no touch nothing changes. */
    method TouchesBegan(touch: Option<Touch>)
      modifies this`segmentSelected, this`needsDisplay
      ensures touch.None? ==> segmentSelected == old(segmentSelected) && needsDisplay == old(needsDisplay)
      ensures touch.Some? ==>
                && segmentSelected == HitTest(segmentGeometricValues, doughNutOuterRadius, doughNutWidth,
                                              touch.value.distance, touch.value.angle)
                && needsDisplay
    {
      if touch.Some? {
        segmentSelected := SegmentTapped(touch.value);
        needsDisplay := true;
      }
    }

    /** `clearSelection`: no segment is selected and a redraw is requested; the
        listener is not told. */
    method ClearSelection()
      modifies this`segmentSelected, this`needsDisplay
      ensures segmentSelected == -1 && needsDisplay
    {
      segmentSelected := -1;
      needsDisplay := true;
    }
  }
}
