/** The builders of the query-response records. Each setter assigns one
    field of its builder; `Build` validates the fields and either returns the
    record or throws, as the pure build functions of `MetricsQueryResults` say. */
module MetricsQueryResultBuilders {
  import opened Exceptions
  import opened MetricsQueryResults

  /** Builder of the response envelope. */
  class EnvelopeBuilder {
    var queries: Option<seq<Query>>
    var otherArgs: OtherArgs

    function State(): EnvelopeFields
      reads this
    {
      EnvelopeFields(queries, otherArgs)
    }

    constructor ()
      ensures State() == NewEnvelopeFields
    {
      queries := None;
      otherArgs := map[];
    }

    method AddOtherArg(key: string, value: Value) returns (thrown: Option<Exception>)
      modifies this`otherArgs
      ensures AddedOtherArg(old(otherArgs), key, value, otherArgs, thrown)
    {
      match PutOtherArg(otherArgs, key, value)
      case Ok(m) => otherArgs := m; thrown := None;
      case Err(e) => thrown := Some(e);
    }

    method SetQueries(value: seq<Query>)
      modifies this`queries
      ensures queries == Some(value)
    {
      queries := Some(value);
    }

    method Build() returns (r: Outcome<DefaultMetricsQueryResult>)
      ensures r == BuildEnvelope(State())
    {
      r := BuildEnvelope(State());
    }
  }

  /** Builder of one query of a response. */
  class QueryBuilder {
    var results: Option<seq<Result>>
    var sampleSize: Long
    var otherArgs: OtherArgs

    function State(): QueryFields
      reads this
    {
      QueryFields(results, sampleSize, otherArgs)
    }

    constructor ()
      ensures State() == NewQueryFields
    {
      results := None;
      sampleSize := 0;
      otherArgs := map[];
    }

    method AddOtherArg(key: string, value: Value) returns (thrown: Option<Exception>)
      modifies this`otherArgs
      ensures AddedOtherArg(old(otherArgs), key, value, otherArgs, thrown)
    {
      match PutOtherArg(otherArgs, key, value)
      case Ok(m) => otherArgs := m; thrown := None;
      case Err(e) => thrown := Some(e);
    }

    method SetSampleSize(value: Long)
      modifies this`sampleSize
      ensures sampleSize == value
    {
      sampleSize := value;
    }

    method SetResults(value: seq<Result>)
      modifies this`results
      ensures results == Some(value)
    {
      results := Some(value);
    }

    method Build() returns (r: Outcome<Query>)
      ensures r == BuildQuery(State())
    {
      r := BuildQuery(State());
    }
  }

  /** Builder of one series of a query. */
  class ResultBuilder {
    var name: Option<string>
    var values: seq<DataPoint>
    var otherArgs: OtherArgs
    var alerts: seq<AlertTrigger>
    var tags: Multimap
    var groupBy: seq<QueryGroupBy>

    function State(): ResultFields
      reads this
    {
      ResultFields(name, values, otherArgs, alerts, tags, groupBy)
    }

    constructor ()
      ensures State() == NewResultFields
    {
      name := None;
      values := [];
      otherArgs := map[];
      alerts := [];
      tags := [];
      groupBy := [];
    }

    /** `Result.Builder.clone`: a builder holding every field of `r`. */
    constructor Clone(r: Result)
      ensures State() == CloneFields(r)
    {
      name := Some(r.name);
      values := r.values;
      otherArgs := r.otherArgs;
      alerts := r.alerts;
      tags := r.tags;
      groupBy := r.groupBy;
    }

    method AddOtherArg(key: string, value: Value) returns (thrown: Option<Exception>)
      modifies this`otherArgs
      ensures AddedOtherArg(old(otherArgs), key, value, otherArgs, thrown)
    {
      match PutOtherArg(otherArgs, key, value)
      case Ok(m) => otherArgs := m; thrown := None;
      case Err(e) => thrown := Some(e);
    }

    method SetOtherArgs(value: OtherArgs)
      modifies this`otherArgs
      ensures otherArgs == value
    {
      otherArgs := value;
    }

    method SetValues(value: seq<DataPoint>)
      modifies this`values
      ensures values == value
    {
      values := value;
    }

    method SetName(value: string)
      modifies this`name
      ensures name == Some(value)
    {
      name := Some(value);
    }

    method SetTags(value: Multimap)
      modifies this`tags
      ensures tags == value
    {
      tags := value;
    }

    method SetAlerts(value: seq<AlertTrigger>)
      modifies this`alerts
      ensures alerts == value
    {
      alerts := value;
    }

    method SetGroupBy(value: seq<QueryGroupBy>)
      modifies this`groupBy
      ensures groupBy == value
    {
      groupBy := value;
    }

    method Build() returns (r: Outcome<Result>)
      ensures r == BuildResult(State())
    {
      r := BuildResult(State());
    }
  }

  /** Builder of one data point; `value == Null` is a value not yet set. */
  class DataPointBuilder {
    var time: Option<DateTime>
    var value: Value

    function State(): DataPointFields
      reads this
    {
      DataPointFields(time, value)
    }

    constructor ()
      ensures State() == NewDataPointFields
    {
      time := None;
      value := Null;
    }

    /** The list constructor used when deserialising: succeeds, with the
        time and value read from the pair, exactly where `Deserialize` gets
        past reading the list. */
    static method FromList(arr: seq<Value>) returns (r: Outcome<DataPointBuilder>)
      ensures DataPointFieldsFromList(arr).Err? ==> r == Err(DataPointFieldsFromList(arr).error)
      ensures DataPointFieldsFromList(arr).Ok? ==>
                r.Ok? && fresh(r.value) && r.value.State() == DataPointFieldsFromList(arr).value
    {
      match DataPointFieldsFromList(arr)
      case Err(e) =>
        r := Err(e);
      case Ok(f) =>
        var b := new DataPointBuilder();
        b.SetTime(f.time.value);
        b.SetValue(f.value);
        r := Ok(b);
    }

    method SetTime(t: DateTime)
      modifies this`time
      ensures time == Some(t)
    {
      time := Some(t);
    }

    method SetValue(v: Value)
      modifies this`value
      ensures value == v
    {
      value := v;
    }

    method Build() returns (r: Outcome<DataPoint>)
      ensures r == BuildDataPoint(State())
    {
      r := BuildDataPoint(State());
    }
  }

  /** Builder of a group-by on tags. */
  class TagGroupByBuilder {
    var tags: Option<seq<string>>
    var group: Option<map<string, string>>

    function State(): TagGroupByFields
      reads this
    {
      TagGroupByFields(tags, group)
    }

    constructor ()
      ensures State() == NewTagGroupByFields
    {
      tags := None;
      group := None;
    }

    method SetTags(value: seq<string>)
      modifies this`tags
      ensures tags == Some(value)
    {
      tags := Some(value);
    }

    method SetGroup(value: map<string, string>)
      modifies this`group
      ensures group == Some(value)
    {
      group := Some(value);
    }

    method Build() returns (r: Outcome<QueryGroupBy>)
      ensures r == BuildTagGroupBy(State())
    {
      r := BuildTagGroupBy(State());
    }
  }

  /** Builder of a group-by on result type. */
  class TypeGroupByBuilder {
    var groupType: Option<string>

    function State(): TypeGroupByFields
      reads this
    {
      TypeGroupByFields(groupType)
    }

    constructor ()
      ensures State() == NewTypeGroupByFields
    {
      groupType := None;
    }

    method SetType(value: string)
      modifies this`groupType
      ensures groupType == Some(value)
    {
      groupType := Some(value);
    }

    method Build() returns (r: Outcome<QueryGroupBy>)
      ensures r == BuildTypeGroupBy(State())
    {
      r := BuildTypeGroupBy(State());
    }
  }
}
