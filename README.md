# DoughNutChart, modelled in Dafny

This project models the layout and hit-test engine of `DoughNutChart`, a
UIKit view that draws a doughnut chart. The chart is half a ring, running
from angle pi to 2 pi. The project also models the two colour helpers of
the `UIColor` extension that the chart uses.

Each module of the model covers one part of the source:

- `Colors` covers `lightenColor` and `darkenColor`. A colour is either
  decomposable into red, green, blue and alpha, or not decomposable, which is
  the case where `getRed` fails.
- `Geometry` holds the value of pi, the outer radius derived from the view
  width, the ring band a tap must fall in, and the normalisation of a raw
  arctangent into (0, 2 pi].
- `Layout` covers the segment records (`SegmentGeometryStruct`) and the
  colour check followed by the zero-sum check. It has the label push-out rule
  (`pushOutSegment`) and the record loop of the layout pass. It also has
  `LaidOut`, a predicate that fixes every record of a successful pass, and
  the lemmas about it:
  - the layout is unique;
  - the records are contiguous;
  - each start is a running sum;
  - the records sweep exactly half a turn;
  - no two neighbouring labels are hidden.
- `HitTesting` is the specification of `segmentTapped`. It is a first-match
  search over the closed `[start, end]` intervals, done only for a tap that is
  strictly inside the ring band. Its round-trip lemma is that a tap at the
  middle of a segment selects that segment.
- `Render` is the plan `drawRect` follows. It skips records whose value is
  not positive, darkens the selected record, and truncates the sum shown in
  the centre.
- `Chart` is the class `DoughNutChart`. It has the configuration fields, the
  state each layout pass rewrites, the selection, a redraw flag, and the
  listener:
  - The listener is a flag saying whether a delegate is attached, plus a log
    of every index sent to it.
  - `initializeValues` is split into three steps, each a method of its own:
    - `DeriveGeometry`, the radius derivation;
    - `CheckData`, the colour check and the zero-sum check;
    - `Layout.BuildSegments`, the record loop. It builds the sequence that
      `initializeValues` stores in `segmentGeometricValues`.
- `Demo` covers the demo screen: it loads `[20, 34, 80]` with itself as
  listener, taps, and clears the selection.

`CGFloat` is modelled as an exact `real`, and pi as a decimal value of
`CGFloat(M_PI)` (3.141592653589793, the shortest decimal of the double,
not its exact value); the proofs about the layout use only that it is a
positive constant. Three inputs are opaque, so each is taken as a parameter:

- the square root in `hypotBetweenPoints`, which becomes the tap distance;
- `atan2f` in `touchPointRadians`, which becomes the raw angle;
- `asin` in `minRadiansForLabels`, which becomes the label threshold.

A tap or touch is therefore a `Touch(distance, angle)`, and a layout pass
receives the view size and the threshold.

## Model

| member | source | states |
|---|---|---|
| Colors.LightenColor | DemoChartLibrary/DemoChart/Chart/Chart/UIColor.swift:14-20 | every RGB channel becomes the minimum of channel + factor and 1, and alpha is kept; a colour that does not decompose is returned unchanged; for channels in [0, 1] and factor ≥ 0 the channels stay in [0, 1] and never decrease |
| Colors.DarkenColor | DemoChartLibrary/DemoChart/Chart/Chart/UIColor.swift:22-28 | every RGB channel becomes the maximum of channel − factor and 0, and alpha is kept; a colour that does not decompose is returned unchanged; for channels in [0, 1] and factor ≥ 0 the channels stay in [0, 1] and never increase |
| Colors.DarkenUndoesUnclampedLighten | DemoChartLibrary/DemoChart/Chart/Chart/UIColor.swift:14-28 | darkening by the same factor undoes a lightening that reached no channel's ceiling |
| Colors.LightenComposes | DemoChartLibrary/DemoChart/Chart/Chart/UIColor.swift:14-20 | lightening by f and then by g equals lightening once by f + g, for non-negative factors |
| Geometry.OuterRadius | Chart/DoughNutChart.swift:110 | the ring's outer radius plus a label margin on either side spans the whole view width |
| Geometry.MidRadiusInBand | Chart/DoughNutChart.swift:110-112 | for a positive outer radius, the mid radius (outer − width / 2, width = 0.55 × outer) lies strictly inside the tappable band |
| Geometry.TouchPointRadians | Chart/DoughNutChart.swift:294-302 | a positive raw angle is kept and any other gains 2 pi, so an angle in [−pi, pi] lands in (0, 2 pi] and 0 goes to 2 pi |
| Layout.Validate | Chart/DoughNutChart.swift:118-146 | too few colours is reported exactly when the custom colours do not cover the data and the pool of five is smaller than the data; a zero sum is reported exactly when the colours pass and the sum is 0; on success the palette is the custom colours if they cover the data, otherwise the pool |
| Layout.PushOut | Chart/DoughNutChart.swift:311-323 | the first record keeps its label; a record after a hidden label keeps its label; otherwise the label is hidden exactly when the span is below the threshold |
| Layout.BuildSegments | Chart/DoughNutChart.swift:149-156 | the loop over the data with a running start angle produces exactly the records `LaidOut` prescribes |
| Layout.AppendRecord | Chart/DoughNutChart.swift:152-154 | appending the record built for the next value leaves the earlier records correct and makes the new one correct |
| Layout.LaidOutIsIndexed | Chart/DoughNutChart.swift:153 | record i of a finished layout carries index i |
| Layout.LaidOutIsUnique | Chart/DoughNutChart.swift:149-156 | two layouts of the same data, palette, sum and threshold are equal |
| Layout.Contiguous | Chart/DoughNutChart.swift:150-155 | there is one record per value, carrying value i and palette colour i; record 0 starts at pi, each record starts where the previous one ends, and each spans value / sum × pi |
| Layout.StartIsRunningSum | Chart/DoughNutChart.swift:150-155 | record i starts at pi plus the share of pi taken by the values before it, and ends at pi plus the share taken by the values up to and including it |
| Layout.SweepIsHalfTurn | Chart/DoughNutChart.swift:106-155 | with the sum of the data as divisor, the first record starts at pi and the last one ends at exactly 2 pi |
| Layout.PushOutPattern | Chart/DoughNutChart.swift:311-323 | on a finished layout, record 0 keeps its label, no two neighbours both hide theirs, and a record after a shown label hides its own exactly when value / sum × pi is below the threshold |
| Layout.HiddenAtMostHalfOf | Chart/DoughNutChart.swift:311-323 | a flag sequence whose first flag is clear and that has no two neighbouring flags set has at most half of its flags set |
| Layout.HiddenAtMostHalf | Chart/DoughNutChart.swift:311-323 | at most half of the labels of a finished layout are hidden |
| Layout.EndsBeforeLaterStarts | Chart/DoughNutChart.swift:151-155 | with non-negative values and a positive sum, a record ends no later than any later record starts |
| Layout.SegmentWithinHalfTurn | Chart/DoughNutChart.swift:151-155 | with non-negative values, every record lies within [pi, 2 pi] |
| HitTesting.FirstMatch | Chart/DoughNutChart.swift:265-270 | the result is −1 exactly when no interval holds the angle; otherwise it is the position of an interval that holds it, and no earlier one does |
| HitTesting.FirstMatchIsUnique | Chart/DoughNutChart.swift:266-268 | a scan that stops at the first interval holding the angle has found the first match |
| HitTesting.HitTest | Chart/DoughNutChart.swift:259-273 | outside the strict band the result is −1; on indexed records it is −1 or a valid index; when it is an index, the tap is in the band, that record holds the normalised angle, and no earlier one does; −1 inside the band means no record holds the angle |
| HitTesting.InsideSegmentMatches | Chart/DoughNutChart.swift:265-270 | on a finished layout of non-negative values, an angle strictly after record k's start and no later than its end selects k |
| HitTesting.TapAtMidpointSelects | Chart/DoughNutChart.swift:259-273 | a tap at the mid radius and at the raw angle of the middle of a positive record selects that record |
| Render.DrawPlan | Chart/DoughNutChart.swift:162-167 | the plan has no more calls than there are records |
| Render.DrawPlanDrawsPositive | Chart/DoughNutChart.swift:163-165 | every call draws a record of the chart with a positive value, darkened by 0.25 when it carries the selected index and in its own colour otherwise |
| Render.DrawPlanCoversPositive | Chart/DoughNutChart.swift:162-166 | every record with a positive value is drawn |
| Render.DrawPlanInIndexOrder | Chart/DoughNutChart.swift:162-167 | on indexed records the calls come in strictly increasing index order |
| Render.TruncateToInt | Chart/DoughNutChart.swift:171 | the result is the sum truncated toward zero: it has the sign of the sum and is within one of it, on the side of zero |
| Chart.DoughNutChart.DefaultColors | Chart/DoughNutChart.swift:118 | the pool holds the five storyboard colours in order |
| Chart.DoughNutChart.constructor | Chart/DoughNutChart.swift:37-100 | the property defaults of 37-80: margins 30 and 20, font size 15, data [23, 45, 34], five red colours, no custom colours, no listener, nothing selected; and the error label hidden and empty, as `awakeFromNib` leaves it at 99-100 |
| Chart.DoughNutChart.DeriveGeometry | Chart/DoughNutChart.swift:109-115 | sets the centre, the outer radius, the width (0.55 × outer), the mid radius, the push-out margin (half the font size) and the label threshold, each from the view size and the configuration |
| Chart.DoughNutChart.CheckData | Chart/DoughNutChart.swift:118-146 | picks the palette (the custom colours when they cover the data, else the pool) and answers whether the data passes both checks; the error label is hidden and empty on success, and otherwise shows the message of the first failing check |
| Chart.DoughNutChart.InitializeValues | Chart/DoughNutChart.swift:105-158 | the geometry is always rederived and the error label follows the outcome; the answer is true exactly when both checks pass; the records are then exactly the laid-out ones and stay indexed, while on failure the previous records are kept |
| Chart.DoughNutChart.DrawRect | Chart/DoughNutChart.swift:160-178 | nothing is drawn when the layout pass fails; otherwise the records of the pass are drawn per the draw plan and the centre shows the truncated sum |
| Chart.DoughNutChart.SegmentTapped | Chart/DoughNutChart.swift:259-273 | the scan with early exit answers the hit-test result for the current records, which on indexed records is −1 or a valid index |
| Chart.DoughNutChart.ViewTapped | Chart/DoughNutChart.swift:250-255 | the selection becomes the hit-test result, a redraw is requested, and an attached listener receives that same value once |
| Chart.DoughNutChart.TouchesBegan | Chart/DoughNutChart.swift:277-283 | the first touch selects like a tap and requests a redraw, without notifying; with no touch nothing changes |
| Chart.DoughNutChart.ClearSelection | Chart/DoughNutChart.swift:325-328 | the selection becomes −1 and a redraw is requested; the listener is not told |
| Demo.DemoDataSum | DemoChartLibrary/DemoChart/DemoChartVC.swift:24 | the demo's three values total 134 |
| Demo.DemoLoad | DemoChartLibrary/DemoChart/DemoChartVC.swift:20-27 | after loading the demo data with the screen as listener, a layout pass on a 375 by 300 view succeeds with outer radius 157.5 |
| Demo.DemoSession | DemoChartLibrary/DemoChart/DemoChartVC.swift:20-35 | a tap at the middle of the second arc selects segment 1 and notifies the listener once, with 1; the screen's tap handler then clears the selection to −1 |

## Left out

- Drawing is not modelled: the `UIBezierPath` arcs and strokes of `drawSegment` (Chart/DoughNutChart.swift:181-223), the separators and the inner ring. A draw plan entry records which segment is drawn and in which colour, and nothing about the strokes.
- Labels are not modelled, because they are rendering side effects: creating them in `drawLabel`, their fonts and sizes, clearing `segmentLabelQueue` (120-123), and the trigonometry that places them (213-214). The push-out offsets at 207-212 are dead code.
- Only the error label's text and hidden flag are modelled. Its frame, centre and alignment (92-101, 135, 141) are not.
- `awakeFromNib` (82-102) is modelled only in part: the constructor includes its error-label setup, hidden and empty (99-100). Its gesture recogniser, the error label's frame and centre, and its iPad font-size override are left out.
- The storyboard binding is not modelled, and neither are `innerRingWidth`, `labelFontColor`, `centerLabelFontSize` and `segmentSeperatorGap`, which affect drawing only. `kFontSizeFactor` (68) is never read anywhere, so it is not modelled either.
- The weak `delegate` is modelled as a flag saying whether a listener is attached, plus a log of the indices sent to it. Lifetime and weak references are not modelled.
- `hypotBetweenPoints` (285-290) is not modelled: its square root is an input, the tap distance.
- `minRadiansForLabels` (306-309) is not modelled: its arcsine is an input, the threshold passed to a layout pass. Its domain error, when the label height exceeds the label radius, is not modelled either.
- Geometry.TouchPointRadians: reals are exact, so the `Float` cast of the arctangent and the round trip through degrees lose nothing. The model's angle is the mathematical one, not the rounded one.
- Layout.SweepIsHalfTurn: with `CGFloat` rounding the last end is only close to 2 pi. The exact equality holds for the exact-real model.
- Render.TruncateToInt: does not model the trap Swift raises when the sum is not a number or outside the `Int` range, because sums here are unbounded reals.
- Layout.EndsBeforeLaterStarts, Layout.SegmentWithinHalfTurn, HitTesting.InsideSegmentMatches and HitTesting.TapAtMidpointSelects are stated only for non-negative data. Negative values are outside the chart's domain, but `initializeValues` (105-158) never checks for them and lays them out like any other value, and so does `Layout.BuildSegments`. With negative values the arcs can overlap or run backwards, and these lemmas say nothing about that case.
