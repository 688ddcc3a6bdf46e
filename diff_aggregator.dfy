/** The "diff" transform of one series: each point after the first becomes
    the change in value since the point before it. */
module DiffAggregator {
  import opened Exceptions
  import opened MetricsQueryResults
  import MetricsQueryResultBuilders

  predicate AllNumbers(ps: seq<DataPoint>)
  {
    forall i | 0 <= i < |ps| :: ps[i].value.IsNumber()
  }

  /** The output point for the adjacent pair `prev`, `cur`. */
  function Step(prev: DataPoint, cur: DataPoint): DataPoint
    requires prev.value.IsNumber() && cur.value.IsNumber()
  {
    DataPoint(cur.time, DoubleNum(cur.value.DoubleValue() - prev.value.DoubleValue()))
  }

  /** The transformed values, defined by recursion on the input: fails with a
      cast error on any non-numeric value, otherwise drops the first point
      and turns every later one into its difference from its predecessor. */
  function Diff(ps: seq<DataPoint>): (r: Outcome<seq<DataPoint>>)
    ensures r.Ok? <==> AllNumbers(ps)
    ensures r.Err? ==> r.error == ClassCast
    ensures r.Ok? ==> |r.value| == if |ps| == 0 then 0 else |ps| - 1
    ensures r.Ok? ==> forall i | 0 <= i < |r.value| :: r.value[i] == Step(ps[i], ps[i + 1])
  {
    if |ps| == 0 then Ok([])
    else if !ps[0].value.IsNumber() then Err(ClassCast)
    else if |ps| == 1 then Ok([])
    else
      match Diff(ps[1..])
      case Err(e) => Err(e)
      case Ok(rest) => Ok([Step(ps[0], ps[1])] + rest)
  }

  /** `transformQueryResult`: one pass over the points remembering the last
      value, then a clone of the input with only `values` replaced. */
  method TransformQueryResult(result: Result) returns (r: Outcome<Result>)
    ensures r.Ok? <==> AllNumbers(result.values) && ValidResult(result)
    ensures !AllNumbers(result.values) ==> r == Err(ClassCast)
    ensures AllNumbers(result.values) && !ValidResult(result) ==>
              r == Err(ConstraintsViolated(ResultViolations(CloneFields(result))))
    ensures r.Ok? ==> r.value == result.(values := Diff(result.values).value)
  {
    var points := result.values;
    var transformed: seq<DataPoint> := [];
    var last: Option<real> := None;
    for i := 0 to |points|
      invariant AllNumbers(points[..i])
      invariant last.None? <==> i == 0
      invariant i > 0 ==> last == Some(points[i - 1].value.DoubleValue())
      invariant |transformed| == if i == 0 then 0 else i - 1
      invariant forall j | 0 <= j < |transformed| :: transformed[j] == Step(points[j], points[j + 1])
    {
      var point := points[i];
      if !point.value.IsNumber() {
        assert !AllNumbers(points);
        return Err(ClassCast);
      }
      var currentValue := point.value.DoubleValue();
      if last.Some? {
        var builder := new MetricsQueryResultBuilders.DataPointBuilder();
        builder.SetTime(point.time);
        builder.SetValue(DoubleNum(currentValue - last.value));
        var built := builder.Build();
        transformed := transformed + [built.value];
      }
      last := Some(currentValue);
    }
    assert points[..|points|] == points;
    assert AllNumbers(points);
    ghost var expected := Diff(points).value;
    assert |expected| == |transformed|;
    forall j | 0 <= j < |expected|
      ensures expected[j] == transformed[j]
    {
      assert expected[j] == Step(points[j], points[j + 1]);
      assert transformed[j] == Step(points[j], points[j + 1]);
    }
    var newResult := new MetricsQueryResultBuilders.ResultBuilder.Clone(result);
    newResult.SetValues(transformed);
    r := newResult.Build();
  }

  /** Timestamps in time order; a series may repeat a timestamp. */
  ghost predicate Ascending(ps: seq<DataPoint>)
  {
    forall i, j | 0 <= i < j < |ps| :: ps[i].time.millis <= ps[j].time.millis
  }

  /** The output timestamps are the input's without the first one. */
  lemma {:induction false} DiffTimesAreTail(ps: seq<DataPoint>)
    requires Diff(ps).Ok? && |ps| > 0
    ensures forall i | 0 <= i < |Diff(ps).value| :: Diff(ps).value[i].time == ps[1..][i].time
  {
  }

  /** Ascending input timestamps give ascending output timestamps. */
  lemma {:induction false} DiffKeepsAscending(ps: seq<DataPoint>)
    requires Diff(ps).Ok? && Ascending(ps)
    ensures Ascending(Diff(ps).value)
  {
    var out := Diff(ps).value;
    forall i, j | 0 <= i < j < |out|
      ensures out[i].time.millis <= out[j].time.millis
    {
      assert out[i].time == ps[i + 1].time && out[j].time == ps[j + 1].time;
    }
  }

  /** Points at t0, t1, t2 with values 10, 15, 12 give 5 at t1 and -3 at t2. */
  lemma DiffExample(t0: DateTime, t1: DateTime, t2: DateTime)
    ensures Diff([DataPoint(t0, LongNum(10)), DataPoint(t1, LongNum(15)), DataPoint(t2, LongNum(12))])
            == Ok([DataPoint(t1, DoubleNum(5.0)), DataPoint(t2, DoubleNum(-3.0))])
  {
    var ps := [DataPoint(t0, LongNum(10)), DataPoint(t1, LongNum(15)), DataPoint(t2, LongNum(12))];
    assert AllNumbers(ps);
    var r := Diff(ps).value;
    assert r[0] == Step(ps[0], ps[1]) && r[1] == Step(ps[1], ps[2]);
    assert r == [DataPoint(t1, DoubleNum(5.0)), DataPoint(t2, DoubleNum(-3.0))];
  }
}
