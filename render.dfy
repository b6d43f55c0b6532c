/** What one `drawRect` pass draws, as a plan: the segments in order, each
    with the fill colour it is stroked with, and the number in the centre. */
module Render {
  import opened Colors
  import opened Layout

  /** How far a selected segment is darkened (`kColorDarkenFactor`). */
  const ColorDarkenFactor: real := 0.25

  /** One `drawSegment` call: the record drawn and its fill colour. */
  datatype SegmentDraw = SegmentDraw(segment: Segment, color: Color)

  /** Everything a successful pass draws. */
  datatype Frame = Frame(segments: seq<SegmentDraw>, centerLabel: int)

  /** The call for one record: the selected record is darkened. */
  function DrawFor(s: Segment, selected: int): SegmentDraw
  {
    SegmentDraw(s, if s.index == selected then DarkenColor(s.segmentColor, ColorDarkenFactor) else s.segmentColor)
  }

  /** The segment calls of a pass, in record order: records with a value that
      is not positive are skipped. */
  function DrawPlan(segs: seq<Segment>, selected: int): (plan: seq<SegmentDraw>)
    ensures |plan| <= |segs|
  {
    if |segs| == 0 then []
    else
      var last := segs[|segs| - 1];
      DrawPlan(segs[..|segs| - 1], selected) + (if last.chartData > 0.0 then [DrawFor(last, selected)] else [])
  }

  /** Every call in the plan draws a record of the chart with a positive
      value, in its own colour, or darkened when it carries the selected index. */
  lemma {:induction false} DrawPlanDrawsPositive(segs: seq<Segment>, selected: int)
    ensures forall d :: d in DrawPlan(segs, selected) ==> d.segment in segs && d.segment.chartData > 0.0
    ensures forall d :: d in DrawPlan(segs, selected) ==>
              d.color == if d.segment.index == selected
                         then DarkenColor(d.segment.segmentColor, ColorDarkenFactor)
                         else d.segment.segmentColor
  {
    if |segs| > 0 {
      var front := segs[..|segs| - 1];
      DrawPlanDrawsPositive(front, selected);
      assert forall s :: s in front ==> s in segs;
    }
  }

  /** Every record with a positive value is drawn. */
  lemma {:induction false} DrawPlanCoversPositive(segs: seq<Segment>, selected: int)
    ensures forall i :: 0 <= i < |segs| && segs[i].chartData > 0.0 ==> DrawFor(segs[i], selected) in DrawPlan(segs, selected)
  {
    if |segs| > 0 {
      var front := segs[..|segs| - 1];
      DrawPlanCoversPositive(front, selected);
      assert forall i :: 0 <= i < |front| ==> front[i] == segs[i];
    }
  }

  /** On indexed records the calls come in increasing index order, so no
      record is drawn twice. */
  lemma {:induction false} DrawPlanInIndexOrder(segs: seq<Segment>, selected: int)
    requires Indexed(segs)
    ensures var plan := DrawPlan(segs, selected);
            forall j, k :: 0 <= j < k < |plan| ==> plan[j].segment.index < plan[k].segment.index
  {
    if |segs| > 0 {
      var front := segs[..|segs| - 1];
      assert forall i :: 0 <= i < |front| ==> front[i] == segs[i];
      DrawPlanInIndexOrder(front, selected);
      DrawPlanDrawsPositive(front, selected);
      var last := segs[|segs| - 1];
      assert forall d :: d in DrawPlan(front, selected) ==> d.segment.index < last.index;
    }
  }

  /** `Int(CGFloat)`: truncation toward zero. */
  function TruncateToInt(x: real): (n: int)
    ensures x >= 0.0 ==> n >= 0 && n as real <= x < n as real + 1.0
    ensures x < 0.0 ==> n <= 0 && n as real - 1.0 < x <= n as real
  {
    if x >= 0.0 then x.Floor else -((-x).Floor)
  }
}
