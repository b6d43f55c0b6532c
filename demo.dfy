/** The demo screen driving the chart: it attaches itself as listener, sets
    three data values, and clears the selection on a tap outside the chart. */
module Demo {
  import opened Geometry
  import opened Layout
  import opened HitTesting
  import opened Chart

  /** The demo's three values total 134, so the layout pass accepts them. */
  lemma DemoDataSum()
    ensures Sum([20.0, 34.0, 80.0]) == 134.0
  {
    var data := [20.0, 34.0, 80.0];
    assert data[..2] == [20.0, 34.0] && data[..2][..1] == [20.0] && data[..2][..1][..0] == [];
    assert Sum([20.0]) == 20.0;
    assert Sum([20.0, 34.0]) == 54.0;
  }

  /** `viewDidLoad` and one layout pass on a 375 by 300 view: the listener is
      attached, nothing is selected yet, and the three values are laid out. */
  method DemoLoad(minRadiansForLabels: real) returns (chart: DoughNutChart)
    ensures fresh(chart)
    ensures chart.hasDelegate && chart.notifications == []
    ensures chart.segmentDataArray == [20.0, 34.0, 80.0]
    ensures chart.doughNutOuterRadius == 157.5
    ensures chart.doughNutWidth == chart.doughNutOuterRadius * DoughNutWidthFactor
    ensures LaidOut(chart.segmentGeometricValues, chart.segmentDataArray, chart.segmentColors,
                    Sum(chart.segmentDataArray), minRadiansForLabels)
  {
    chart := new DoughNutChart();
    chart.hasDelegate := true;
    chart.segmentDataArray := [20.0, 34.0, 80.0];
    var ok := chart.InitializeValues(375.0, 300.0, minRadiansForLabels);
    DemoDataSum();
    assert ok;
  }

  /** The whole demo: after loading, a tap at the middle of the second arc
      selects segment 1 and tells the listener exactly once, and the screen's
      own tap handler then clears the selection without telling it. */
  method DemoSession(minRadiansForLabels: real) returns (tapped: int, notified: seq<int>, afterClear: int)
    ensures tapped == 1 && notified == [1] && afterClear == -1
  {
    var chart := DemoLoad(minRadiansForLabels);
    var data, palette, segs := chart.segmentDataArray, chart.segmentColors, chart.segmentGeometricValues;
    assert NonNegative(data);
    var outer, width := chart.doughNutOuterRadius, chart.doughNutWidth;
    TapAtMidpointSelects(segs, data, palette, minRadiansForLabels, 1, outer);
    var mid := (segs[1].startRadian + segs[1].endRadian) / 2.0;
    chart.ViewTapped(Touch(outer - width / 2.0, mid - 2.0 * Pi));
    tapped := chart.segmentSelected;
    notified := chart.notifications;
    chart.ClearSelection();
    afterClear := chart.segmentSelected;
  }
}
