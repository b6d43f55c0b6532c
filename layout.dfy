/** The segment layout engine of the doughnut chart: colour validation, the
    zero-sum check, and the records that turn each data value into an arc of
    a half circle starting at angle pi, each with its label push-out flag. */
module Layout {
  import opened Wrappers
  import opened Colors
  import opened Geometry

  /** `SegmentGeometryStruct`: one arc of the chart. */
  datatype Segment = Segment(
    index: int,
    chartData: real,
    startRadian: real,
    endRadian: real,
    segmentColor: Color,
    pushOut: bool)

  /** The record `segmentTapped` starts from: index -1, everything else zero. */
  const DefaultSegment: Segment := Segment(-1, 0.0, 0.0, 0.0, ClearColor, false)

  /** Why a layout pass draws nothing. */
  datatype LayoutError = NotEnoughColors | DataSumsToZero

  /** `reduce(0.0, combine: +)`, folded from the left. */
  function Sum(data: seq<real>): real
  {
    if |data| == 0 then 0.0 else Sum(data[..|data| - 1]) + data[|data| - 1]
  }

  predicate NonNegative(data: seq<real>) {
    forall i :: 0 <= i < |data| ==> data[i] >= 0.0
  }

  /** Record i carries index i. */
  predicate Indexed(segs: seq<Segment>) {
    forall i :: 0 <= i < |segs| ==> segs[i].index == i
  }

  lemma {:induction false} SumOfNonNegative(data: seq<real>)
    requires NonNegative(data)
    ensures Sum(data) >= 0.0
  {
    if |data| > 0 {
      SumOfNonNegative(data[..|data| - 1]);
    }
  }

  /** The colour check and then the zero-sum check of the layout pass. Custom
      colours win when there are at least as many as data values; otherwise
      the fixed pool must be large enough. The sum is only looked at once the
      colours have passed. */
  function Validate(data: seq<real>, custom: Option<seq<Color>>, pool: seq<Color>): (r: Result<seq<Color>, LayoutError>)
    ensures r == Failure(NotEnoughColors) <==>
              !(custom.Some? && |custom.value| >= |data|) && |pool| < |data|
    ensures r == Failure(DataSumsToZero) <==>
              ((custom.Some? && |custom.value| >= |data|) || |pool| >= |data|) && Sum(data) == 0.0
    ensures r.Success? ==> Sum(data) != 0.0 && |r.value| >= |data|
    ensures r.Success? && custom.Some? && |custom.value| >= |data| ==> r.value == custom.value
    ensures r.Success? && !(custom.Some? && |custom.value| >= |data|) ==> r.value == pool
  {
    var palette :=
      if custom.Some? && |custom.value| >= |data| then Some(custom.value)
      else if |pool| < |data| then None
      else Some(pool);
    if palette.None? then Failure(NotEnoughColors)
    else if Sum(data) == 0.0 then Failure(DataSumsToZero)
    else Success(palette.value)
  }

  /** `pushOutSegment`: whether the label of the segment about to be recorded
      at `index` is hidden, given the records built so far. The first segment
      keeps its label; a segment right after a hidden one keeps its label;
      any other segment hides it exactly when its span is below the threshold. */
  function PushOut(records: seq<Segment>, startRad: real, endRadian: real, index: int, minRadians: real): (p: bool)
    requires index <= |records|
    ensures index <= 0 ==> !p
    ensures index > 0 && records[index - 1].pushOut ==> !p
    ensures index > 0 && !records[index - 1].pushOut ==> (p <==> endRadian - startRad < minRadians)
  {
    if index > 0 then
      if records[index - 1].pushOut then false
      else if endRadian - startRad < minRadians then true
      else false
    else false
  }

  /** Record i is the one the layout pass appends for data value i: it starts
      at pi or where record i-1 ends, spans `data[i] / sum * pi`, takes colour i
      of the palette and the push-out flag the rule gives. */
  ghost predicate RecordAt(segs: seq<Segment>, i: nat, data: seq<real>, palette: seq<Color>, sum: real, minRadians: real)
    requires i < |segs| && i < |data| && i < |palette| && sum != 0.0
  {
    var s := segs[i];
    && s.index == i
    && s.chartData == data[i]
    && s.segmentColor == palette[i]
    && s.startRadian == (if i == 0 then Pi else segs[i - 1].endRadian)
    && s.endRadian == data[i] / sum * Pi + s.startRadian
    && s.pushOut == PushOut(segs, s.startRadian, s.endRadian, i, minRadians)
  }

  /** `segs` is the complete result of a successful layout pass. */
  ghost predicate LaidOut(segs: seq<Segment>, data: seq<real>, palette: seq<Color>, sum: real, minRadians: real)
  {
    && sum != 0.0
    && |segs| == |data| <= |palette|
    && forall i :: 0 <= i < |segs| ==> RecordAt(segs, i, data, palette, sum, minRadians)
  }

  lemma LaidOutIsIndexed(segs: seq<Segment>, data: seq<real>, palette: seq<Color>, sum: real, minRadians: real)
    requires LaidOut(segs, data, palette, sum, minRadians)
    ensures Indexed(segs)
  {
    forall i | 0 <= i < |segs| ensures segs[i].index == i {
      assert RecordAt(segs, i, data, palette, sum, minRadians);
    }
  }

  lemma {:induction false} LaidOutAgreeUpTo(a: seq<Segment>, b: seq<Segment>, data: seq<real>, palette: seq<Color>, sum: real, minRadians: real, k: nat)
    requires LaidOut(a, data, palette, sum, minRadians) && LaidOut(b, data, palette, sum, minRadians)
    requires k <= |a|
    ensures a[..k] == b[..k]
  {
    if k > 0 {
      LaidOutAgreeUpTo(a, b, data, palette, sum, minRadians, k - 1);
      var i := k - 1;
      assert RecordAt(a, i, data, palette, sum, minRadians);
      assert RecordAt(b, i, data, palette, sum, minRadians);
      if i > 0 {
        assert a[i - 1] == a[..k - 1][i - 1] == b[..k - 1][i - 1] == b[i - 1];
      }
      assert a[i] == b[i];
      assert a[..k] == a[..k - 1] + [a[i]];
      assert b[..k] == b[..k - 1] + [b[i]];
    }
  }

  /** The layout of a data array is fully determined by the inputs. */
  lemma LaidOutIsUnique(a: seq<Segment>, b: seq<Segment>, data: seq<real>, palette: seq<Color>, sum: real, minRadians: real)
    requires LaidOut(a, data, palette, sum, minRadians) && LaidOut(b, data, palette, sum, minRadians)
    ensures a == b
  {
    LaidOutAgreeUpTo(a, b, data, palette, sum, minRadians, |a|);
    assert a == a[..|a|] && b == b[..|b|];
  }

  /** One record per data value, carrying that value and its palette colour;
      segment 0 starts at pi, each later one where the previous one ends, and
      each spans its value's share of pi. */
  lemma Contiguous(segs: seq<Segment>, data: seq<real>, palette: seq<Color>, sum: real, minRadians: real)
    requires LaidOut(segs, data, palette, sum, minRadians)
    ensures |segs| == |data|
    ensures |segs| > 0 ==> segs[0].startRadian == Pi
    ensures forall i :: 0 < i < |segs| ==> segs[i].startRadian == segs[i - 1].endRadian
    ensures forall i :: 0 <= i < |segs| ==>
              && segs[i].index == i
              && segs[i].chartData == data[i]
              && segs[i].segmentColor == palette[i]
              && segs[i].endRadian - segs[i].startRadian == data[i] / sum * Pi
  {
    forall i | 0 <= i < |segs|
      ensures segs[i].startRadian == (if i == 0 then Pi else segs[i - 1].endRadian)
      ensures segs[i].index == i && segs[i].chartData == data[i] && segs[i].segmentColor == palette[i]
      ensures segs[i].endRadian - segs[i].startRadian == data[i] / sum * Pi
    {
      assert RecordAt(segs, i, data, palette, sum, minRadians);
    }
    if |segs| > 0 {
      assert RecordAt(segs, 0, data, palette, sum, minRadians);
    }
  }

  lemma DivSplit(x: real, y: real, s: real)
    requires s != 0.0
    ensures (x + y) / s * Pi == x / s * Pi + y / s * Pi
  {
  }

  /** Segment i starts at pi plus the share of pi taken by the values before it
      and ends at pi plus the share taken by the values up to and including it. */
  lemma {:induction false} StartIsRunningSum(segs: seq<Segment>, data: seq<real>, palette: seq<Color>, sum: real, minRadians: real, i: nat)
    requires LaidOut(segs, data, palette, sum, minRadians) && i < |segs|
    ensures segs[i].startRadian == Pi + Sum(data[..i]) / sum * Pi
    ensures segs[i].endRadian == Pi + Sum(data[..i + 1]) / sum * Pi
  {
    assert RecordAt(segs, i, data, palette, sum, minRadians);
    if i == 0 {
      assert data[..0] == [];
    } else {
      StartIsRunningSum(segs, data, palette, sum, minRadians, i - 1);
    }
    assert data[..i + 1][..i] == data[..i];
    assert Sum(data[..i + 1]) == Sum(data[..i]) + data[i];
    DivSplit(Sum(data[..i]), data[i], sum);
  }

  /** With exact arithmetic the segments together sweep exactly half a
      circle: the first starts at pi and the last ends at 2 pi. */
  lemma SweepIsHalfTurn(segs: seq<Segment>, data: seq<real>, palette: seq<Color>, minRadians: real)
    requires LaidOut(segs, data, palette, Sum(data), minRadians) && |segs| > 0
    ensures segs[0].startRadian == Pi
    ensures segs[|segs| - 1].endRadian == 2.0 * Pi
  {
    assert RecordAt(segs, 0, data, palette, Sum(data), minRadians);
    StartIsRunningSum(segs, data, palette, Sum(data), minRadians, |segs| - 1);
    assert data[..|segs|] == data;
  }

  /** The push-out rule on a finished layout: segment 0 keeps its label, no two
      neighbours both lose theirs, and a segment after a labelled one loses its
      label exactly when its span is below the threshold. */
  lemma PushOutPattern(segs: seq<Segment>, data: seq<real>, palette: seq<Color>, sum: real, minRadians: real)
    requires LaidOut(segs, data, palette, sum, minRadians)
    ensures |segs| > 0 ==> !segs[0].pushOut
    ensures forall i :: 0 < i < |segs| ==> !(segs[i - 1].pushOut && segs[i].pushOut)
    ensures forall i :: 0 < i < |segs| && !segs[i - 1].pushOut ==>
              (segs[i].pushOut <==> data[i] / sum * Pi < minRadians)
  {
    forall i | 0 <= i < |segs|
      ensures i == 0 ==> !segs[i].pushOut
      ensures i > 0 && segs[i - 1].pushOut ==> !segs[i].pushOut
      ensures i > 0 && !segs[i - 1].pushOut ==> (segs[i].pushOut <==> data[i] / sum * Pi < minRadians)
    {
      assert RecordAt(segs, i, data, palette, sum, minRadians);
    }
  }

  /** The number of segments whose label is hidden. */
  function HiddenLabels(segs: seq<Segment>): nat
  {
    if |segs| == 0 then 0
    else HiddenLabels(segs[..|segs| - 1]) + (if segs[|segs| - 1].pushOut then 1 else 0)
  }

  /** A sequence whose first flag is clear and that has no two neighbouring
      flags set has at most half of its flags set. */
  lemma {:induction false} HiddenAtMostHalfOf(segs: seq<Segment>)
    requires |segs| > 0 ==> !segs[0].pushOut
    requires forall i :: 0 < i < |segs| ==> !(segs[i - 1].pushOut && segs[i].pushOut)
    ensures HiddenLabels(segs) <= |segs| / 2
  {
    var n := |segs|;
    if n > 1 {
      var front := segs[..n - 1];
      assert forall i :: 0 <= i < |front| ==> front[i] == segs[i];
      HiddenAtMostHalfOf(front);
      if segs[n - 1].pushOut && n > 2 {
        var front2 := segs[..n - 2];
        assert front[..n - 2] == front2;
        assert forall i :: 0 <= i < |front2| ==> front2[i] == segs[i];
        HiddenAtMostHalfOf(front2);
        assert !segs[n - 2].pushOut;
        assert HiddenLabels(front) == HiddenLabels(front2);
      }
    }
  }

  /** At most half of the labels of a laid-out chart are hidden. */
  lemma HiddenAtMostHalf(segs: seq<Segment>, data: seq<real>, palette: seq<Color>, sum: real, minRadians: real)
    requires LaidOut(segs, data, palette, sum, minRadians)
    ensures HiddenLabels(segs) <= |segs| / 2
  {
    PushOutPattern(segs, data, palette, sum, minRadians);
    HiddenAtMostHalfOf(segs);
  }

  /** With non-negative values and a positive sum, a segment ends no later than
      any later segment starts. */
  lemma {:induction false} EndsBeforeLaterStarts(segs: seq<Segment>, data: seq<real>, palette: seq<Color>, sum: real, minRadians: real, j: nat, k: nat)
    requires LaidOut(segs, data, palette, sum, minRadians) && NonNegative(data) && sum > 0.0
    requires j < k < |segs|
    ensures segs[j].endRadian <= segs[k].startRadian
    decreases k
  {
    assert RecordAt(segs, k, data, palette, sum, minRadians);
    if j < k - 1 {
      EndsBeforeLaterStarts(segs, data, palette, sum, minRadians, j, k - 1);
      assert RecordAt(segs, k - 1, data, palette, sum, minRadians);
      assert data[k - 1] / sum >= 0.0;
    }
  }

  /** With non-negative values every segment lies within the half turn [pi, 2 pi]. */
  lemma SegmentWithinHalfTurn(segs: seq<Segment>, data: seq<real>, palette: seq<Color>, minRadians: real, k: nat)
    requires LaidOut(segs, data, palette, Sum(data), minRadians) && NonNegative(data)
    requires k < |segs|
    ensures Pi <= segs[k].startRadian <= segs[k].endRadian <= 2.0 * Pi
  {
    var n := |segs|;
    SumOfNonNegative(data);
    SweepIsHalfTurn(segs, data, palette, minRadians);
    assert RecordAt(segs, k, data, palette, Sum(data), minRadians);
    assert data[k] / Sum(data) >= 0.0;
    if k > 0 {
      EndsBeforeLaterStarts(segs, data, palette, Sum(data), minRadians, 0, k);
      assert RecordAt(segs, 0, data, palette, Sum(data), minRadians);
      assert data[0] / Sum(data) >= 0.0;
    }
    if k < n - 1 {
      EndsBeforeLaterStarts(segs, data, palette, Sum(data), minRadians, k, n - 1);
      assert RecordAt(segs, n - 1, data, palette, Sum(data), minRadians);
      assert data[n - 1] / Sum(data) >= 0.0;
    }
  }

  /** The record loop of the layout pass: walk the data values in order,
      each arc starting where the previous one ended (pi for the first), and
      append its record with the push-out flag decided against the records
      already built. */
  method BuildSegments(data: seq<real>, palette: seq<Color>, sum: real, minRadians: real) returns (segs: seq<Segment>)
    requires |data| <= |palette| && sum != 0.0
    ensures LaidOut(segs, data, palette, sum, minRadians)
  {
    var segmentStartRadian: real := Pi;
    segs := [];
    var index := 0;
    while index < |data|
      invariant 0 <= index <= |data|
      invariant |segs| == index
      invariant segmentStartRadian == if index == 0 then Pi else segs[index - 1].endRadian
      invariant forall i :: 0 <= i < index ==> RecordAt(segs, i, data, palette, sum, minRadians)
    {
      var segment := data[index];
      var segmentEndRadian := (segment / sum) * Pi + segmentStartRadian;
      var pushOutStatus := PushOut(segs, segmentStartRadian, segmentEndRadian, index, minRadians);
      var segmentGeometryValue := Segment(index, segment, segmentStartRadian, segmentEndRadian, palette[index], pushOutStatus);
      AppendRecord(segs, data, palette, sum, minRadians, segmentGeometryValue);
      segs := segs + [segmentGeometryValue];
      segmentStartRadian := segmentEndRadian;
      index := index + 1;
    }
  }

  /** Appending the record the layout pass builds for the next data value keeps
      every record of the prefix in place and makes the new one record i. */
  lemma AppendRecord(segs: seq<Segment>, data: seq<real>, palette: seq<Color>, sum: real, minRadians: real, s: Segment)
    requires |segs| < |data| <= |palette| && sum != 0.0
    requires forall i :: 0 <= i < |segs| ==> RecordAt(segs, i, data, palette, sum, minRadians)
    requires var n := |segs|;
             && s.index == n && s.chartData == data[n] && s.segmentColor == palette[n]
             && s.startRadian == (if n == 0 then Pi else segs[n - 1].endRadian)
             && s.endRadian == data[n] / sum * Pi + s.startRadian
             && s.pushOut == PushOut(segs, s.startRadian, s.endRadian, n, minRadians)
    ensures forall i :: 0 <= i <= |segs| ==> RecordAt(segs + [s], i, data, palette, sum, minRadians)
  {
    var after := segs + [s];
    forall i | 0 <= i <= |segs| ensures RecordAt(after, i, data, palette, sum, minRadians) {
      if i < |segs| {
        assert RecordAt(segs, i, data, palette, sum, minRadians);
        assert after[i] == segs[i];
        if i > 0 { assert after[i - 1] == segs[i - 1]; }
      }
    }
  }
}
