/** Hit-testing: from a tap, already reduced to its distance from the chart
    centre and its raw arctangent angle, back to the index of the segment
    under it, or -1. */
module HitTesting {
  import opened Colors
  import opened Geometry
  import opened Layout

  /** The closed angular interval of a segment contains `theta`. */
  predicate Covers(s: Segment, theta: real) {
    s.startRadian <= theta <= s.endRadian
  }

  /** Position of the first segment whose closed interval contains `theta`,
      or -1 when there is none. */
  function FirstMatch(segs: seq<Segment>, theta: real): (k: int)
    ensures -1 <= k < |segs|
    ensures k == -1 <==> forall i :: 0 <= i < |segs| ==> !Covers(segs[i], theta)
    ensures k >= 0 ==> Covers(segs[k], theta) && forall j :: 0 <= j < k ==> !Covers(segs[j], theta)
  {
    if |segs| == 0 then -1
    else if Covers(segs[0], theta) then 0
    else
      var k := FirstMatch(segs[1..], theta);
      assert forall i :: 0 < i < |segs| ==> segs[1..][i - 1] == segs[i];
      if k == -1 then -1 else k + 1
  }

  /** What a scan stopped at position `k` may conclude: the first match is `k`. */
  lemma FirstMatchIsUnique(segs: seq<Segment>, theta: real, k: nat)
    requires k < |segs| && Covers(segs[k], theta)
    requires forall j :: 0 <= j < k ==> !Covers(segs[j], theta)
    ensures FirstMatch(segs, theta) == k
  {
  }

  /** `segmentTapped`: -1 outside the ring band; inside it, the index carried
      by the first segment whose interval holds the normalised angle, or -1. */
  function HitTest(segs: seq<Segment>, outerRadius: real, width: real, hypot: real, angle: real): (r: int)
    ensures !InRingBand(hypot, outerRadius, width) ==> r == -1
    ensures Indexed(segs) ==> -1 <= r < |segs|
    ensures Indexed(segs) && r >= 0 ==>
              && InRingBand(hypot, outerRadius, width)
              && Covers(segs[r], TouchPointRadians(angle))
              && forall j :: 0 <= j < r ==> !Covers(segs[j], TouchPointRadians(angle))
    ensures Indexed(segs) && r == -1 && InRingBand(hypot, outerRadius, width) ==>
              forall i :: 0 <= i < |segs| ==> !Covers(segs[i], TouchPointRadians(angle))
  {
    if InRingBand(hypot, outerRadius, width) then
      var k := FirstMatch(segs, TouchPointRadians(angle));
      if k == -1 then -1 else segs[k].index
    else -1
  }

  /** On a laid-out chart with non-negative values, an angle past the start of
      segment k and not past its end selects segment k: earlier segments end
      no later than k starts, and a shared boundary goes to the earlier segment. */
  lemma InsideSegmentMatches(segs: seq<Segment>, data: seq<real>, palette: seq<Color>, minRadians: real, k: nat, theta: real)
    requires LaidOut(segs, data, palette, Sum(data), minRadians) && NonNegative(data)
    requires k < |segs| && segs[k].startRadian < theta <= segs[k].endRadian
    ensures FirstMatch(segs, theta) == k
  {
    SumOfNonNegative(data);
    forall j | 0 <= j < k ensures !Covers(segs[j], theta) {
      EndsBeforeLaterStarts(segs, data, palette, Sum(data), minRadians, j, k);
    }
    FirstMatchIsUnique(segs, theta, k);
  }

  /** Round trip: a tap at the mid radius of the ring, at the mid angle of a
      segment with a positive value, reports that segment. The raw angle is the
      one a four-quadrant arctangent gives for that direction, `mid - 2 pi`. */
  lemma TapAtMidpointSelects(segs: seq<Segment>, data: seq<real>, palette: seq<Color>, minRadians: real, k: nat, outer: real)
    requires LaidOut(segs, data, palette, Sum(data), minRadians) && NonNegative(data)
    requires k < |segs| && data[k] > 0.0 && outer > 0.0
    ensures var width := outer * DoughNutWidthFactor;
            var mid := (segs[k].startRadian + segs[k].endRadian) / 2.0;
            -Pi < mid - 2.0 * Pi <= 0.0 &&
            HitTest(segs, outer, width, outer - width / 2.0, mid - 2.0 * Pi) == k
  {
    var mid := (segs[k].startRadian + segs[k].endRadian) / 2.0;
    SumOfNonNegative(data);
    SegmentWithinHalfTurn(segs, data, palette, minRadians, k);
    assert RecordAt(segs, k, data, palette, Sum(data), minRadians);
    assert data[k] / Sum(data) > 0.0;
    assert TouchPointRadians(mid - 2.0 * Pi) == mid;
    MidRadiusInBand(outer);
    InsideSegmentMatches(segs, data, palette, minRadians, k, mid);
    LaidOutIsIndexed(segs, data, palette, Sum(data), minRadians);
  }
}
