/** The immutable records of a metrics query response, the field values a
    builder holds before `build()`, and the validating `build()` of each
    record as a pure function of those field values. */
module MetricsQueryResults {
  import opened Exceptions

  /** A Java `long`. */
  type Long = x: int | -0x8000_0000_0000_0000 <= x <= 0x7FFF_FFFF_FFFF_FFFF

  /** A point in time, as far as the model uses it: its epoch milliseconds. */
  datatype DateTime = DateTime(millis: Long)

  /** A Java `Object` stored as a point value or an extra argument. `LongNum`
      and `DoubleNum` are the `Number`s; `NonNumeric` is any other object. */
  datatype Value = Null | LongNum(n: Long) | DoubleNum(x: real) | NonNumeric(repr: string)
  {
    predicate IsNumber() { LongNum? || DoubleNum? }

    /** `Number.doubleValue()`, without floating-point rounding. */
    function DoubleValue(): real
      requires IsNumber()
    {
      if LongNum? then n as real else x
    }
  }

  /** Guava's immutable collections hold no nulls. */
  type NonNullValue = v: Value | !v.Null? witness LongNum(0)

  /** An alert attached to a result; the model never looks inside one. */
  type AlertTrigger

  /** An immutable multimap from tag name to tag value, as its list of entries. */
  type Multimap = seq<(string, string)>

  /** The open map of fields the response carries beyond the named ones. */
  type OtherArgs = map<string, NonNullValue>

  datatype DataPoint = DataPoint(time: DateTime, value: NonNullValue)

  /** The two kinds of group-by descriptor of a result. */
  datatype QueryGroupBy =
    | QueryTagGroupBy(tags: seq<string>, group: map<string, string>)
    | QueryTypeGroupBy(groupType: string)

  datatype Result = Result(
    name: string,
    tags: Multimap,
    values: seq<DataPoint>,
    groupBy: seq<QueryGroupBy>,
    alerts: seq<AlertTrigger>,
    otherArgs: OtherArgs)

  datatype Query = Query(sampleSize: Long, results: seq<Result>, otherArgs: OtherArgs)

  /** The response envelope. */
  datatype DefaultMetricsQueryResult = DefaultMetricsQueryResult(queries: seq<Query>, otherArgs: OtherArgs)

  // ---------------------------------------------------------------------
  // The field values each builder holds; `None` is a field still null.
  // ---------------------------------------------------------------------

  datatype EnvelopeFields = EnvelopeFields(queries: Option<seq<Query>>, otherArgs: OtherArgs)

  datatype QueryFields = QueryFields(results: Option<seq<Result>>, sampleSize: Long, otherArgs: OtherArgs)

  datatype ResultFields = ResultFields(
    name: Option<string>,
    values: seq<DataPoint>,
    otherArgs: OtherArgs,
    alerts: seq<AlertTrigger>,
    tags: Multimap,
    groupBy: seq<QueryGroupBy>)

  /** A `value` of `Null` is a value not yet set. */
  datatype DataPointFields = DataPointFields(time: Option<DateTime>, value: Value)

  datatype TagGroupByFields = TagGroupByFields(tags: Option<seq<string>>, group: Option<map<string, string>>)

  datatype TypeGroupByFields = TypeGroupByFields(groupType: Option<string>)

  /** The field values of a freshly constructed builder. */
  const NewEnvelopeFields := EnvelopeFields(None, map[])
  const NewQueryFields := QueryFields(None, 0, map[])
  const NewResultFields: ResultFields := ResultFields(None, [], map[], [], [], [])
  const NewDataPointFields := DataPointFields(None, Null)
  const NewTagGroupByFields := TagGroupByFields(None, None)
  const NewTypeGroupByFields := TypeGroupByFields(None)

  // ---------------------------------------------------------------------
  // Extra arguments
  // ---------------------------------------------------------------------

  /** `addOtherArg`: copy the map into a fresh ImmutableMap builder, put the
      new entry, and build; a null value is refused by `put`, a key already
      present by `build`. */
  function PutOtherArg(args: OtherArgs, key: string, value: Value): (r: Outcome<OtherArgs>)
    ensures r.Ok? <==> !value.Null? && key !in args
    ensures value.Null? ==> r == Err(NullPointer)
    ensures !value.Null? && key in args ==> r == Err(DuplicateKey(key))
    ensures r.Ok? ==> r.value.Keys == args.Keys + {key} && r.value[key] == value
    ensures r.Ok? ==> forall k | k in args :: r.value[k] == args[k]
  {
    if value.Null? then Err(NullPointer)
    else if key in args then Err(DuplicateKey(key))
    else Ok(args[key := value])
  }

  /** The state change of a builder's `addOtherArg`: on success the new map,
      on an exception the old map and the exception. */
  predicate AddedOtherArg(before: OtherArgs, key: string, value: Value, after: OtherArgs, thrown: Option<Exception>)
  {
    match PutOtherArg(before, key, value)
    case Ok(m) => after == m && thrown == None
    case Err(e) => after == before && thrown == Some(e)
  }

  /** A key may be added once: adding it again throws and keeps the map. */
  lemma PutOtherArgTwice(args: OtherArgs, key: string, v1: NonNullValue, v2: Value)
    requires key !in args
    ensures PutOtherArg(args, key, v1).Ok?
    ensures PutOtherArg(PutOtherArg(args, key, v1).value, key, v2).Err?
  {
  }

  // ---------------------------------------------------------------------
  // Validating builds
  // ---------------------------------------------------------------------

  /** OVal's `@NotNull` on `_queries`. */
  function EnvelopeViolations(f: EnvelopeFields): set<string>
  {
    if f.queries.None? then {"queries"} else {}
  }

  function BuildEnvelope(f: EnvelopeFields): (r: Outcome<DefaultMetricsQueryResult>)
    ensures r.Ok? <==> f.queries.Some?
    ensures r.Err? ==> r.error == ConstraintsViolated({"queries"})
    ensures r.Ok? ==> r.value.queries == f.queries.value && r.value.otherArgs == f.otherArgs
  {
    var v := EnvelopeViolations(f);
    if v == {} then Ok(DefaultMetricsQueryResult(f.queries.value, f.otherArgs))
    else Err(ConstraintsViolated(v))
  }

  /** `@NotNull` on `_results`, `@Min(0)` on `_sampleSize`. */
  function QueryViolations(f: QueryFields): set<string>
  {
    (if f.results.None? then {"results"} else {})
    + (if f.sampleSize < 0 then {"sampleSize"} else {})
  }

  function BuildQuery(f: QueryFields): (r: Outcome<Query>)
    ensures r.Ok? <==> f.results.Some? && f.sampleSize >= 0
    ensures r.Err? ==> r.error.ConstraintsViolated?
                       && ("results" in r.error.fields <==> f.results.None?)
                       && ("sampleSize" in r.error.fields <==> f.sampleSize < 0)
                       && r.error.fields <= {"results", "sampleSize"}
    ensures r.Ok? ==> && r.value.sampleSize == f.sampleSize
                      && r.value.results == f.results.value
                      && r.value.otherArgs == f.otherArgs
  {
    var v := QueryViolations(f);
    if v == {} then Ok(Query(f.sampleSize, f.results.value, f.otherArgs))
    else Err(ConstraintsViolated(v))
  }

  /** What a built result always satisfies: `@NotEmpty` name and tags. */
  predicate ValidResult(r: Result)
  {
    r.name != "" && r.tags != []
  }

  /** `@NotNull @NotEmpty` on `_name` and `@NotEmpty` on `_tags`. */
  function ResultViolations(f: ResultFields): set<string>
  {
    (if f.name.None? || f.name.value == "" then {"name"} else {})
    + (if f.tags == [] then {"tags"} else {})
  }

  function BuildResult(f: ResultFields): (r: Outcome<Result>)
    ensures r.Ok? <==> f.name.Some? && f.name.value != "" && f.tags != []
    ensures r.Err? ==> r.error.ConstraintsViolated?
                       && ("name" in r.error.fields <==> f.name.None? || f.name.value == "")
                       && ("tags" in r.error.fields <==> f.tags == [])
                       && r.error.fields <= {"name", "tags"}
    ensures r.Ok? ==> && r.value.name == f.name.value
                      && r.value.tags == f.tags
                      && r.value.values == f.values
                      && r.value.groupBy == f.groupBy
                      && r.value.alerts == f.alerts
                      && r.value.otherArgs == f.otherArgs
    ensures r.Ok? ==> ValidResult(r.value)
  {
    var v := ResultViolations(f);
    if v == {} then Ok(Result(f.name.value, f.tags, f.values, f.groupBy, f.alerts, f.otherArgs))
    else Err(ConstraintsViolated(v))
  }

  /** The builder fields `Result.Builder.clone` copies from a result's getters. */
  function CloneFields(r: Result): ResultFields
  {
    ResultFields(Some(r.name), r.values, r.otherArgs, r.alerts, r.tags, r.groupBy)
  }

  /** Cloning a result into a builder and building again gives the same
      result back exactly when the result is valid. */
  lemma CloneBuildRoundTrip(r: Result)
    ensures BuildResult(CloneFields(r)).Ok? <==> ValidResult(r)
    ensures ValidResult(r) ==> BuildResult(CloneFields(r)) == Ok(r)
  {
  }

  /** A result built with only a name and tags has no values, no alerts, no
      group-bys and no extra arguments. */
  lemma ResultDefaultsEmpty(name: string, tags: Multimap)
    requires name != "" && tags != []
    ensures BuildResult(NewResultFields.(name := Some(name), tags := tags))
            == Ok(Result(name, tags, [], [], [], map[]))
  {
  }

  /** A query built with only its results has sample size 0 and no extra
      arguments. */
  lemma QuerySampleSizeDefaultsToZero(results: seq<Result>)
    ensures BuildQuery(NewQueryFields.(results := Some(results)))
            == Ok(Query(0, results, map[]))
  {
  }

  /** `@NotNull` on `_time` and on `_value`. */
  function DataPointViolations(f: DataPointFields): set<string>
  {
    (if f.time.None? then {"time"} else {})
    + (if f.value.Null? then {"value"} else {})
  }

  function BuildDataPoint(f: DataPointFields): (r: Outcome<DataPoint>)
    ensures r.Ok? <==> f.time.Some? && !f.value.Null?
    ensures r.Err? ==> r.error.ConstraintsViolated?
                       && ("time" in r.error.fields <==> f.time.None?)
                       && ("value" in r.error.fields <==> f.value.Null?)
                       && r.error.fields <= {"time", "value"}
    ensures r.Ok? ==> r.value.time == f.time.value && r.value.value == f.value
  {
    var v := DataPointViolations(f);
    if v == {} then Ok(DataPoint(f.time.value, f.value))
    else Err(ConstraintsViolated(v))
  }

  /** `@NotNull @NotEmpty` on `_tags` and on `_group`. */
  function TagGroupByViolations(f: TagGroupByFields): set<string>
  {
    (if f.tags.None? || f.tags.value == [] then {"tags"} else {})
    + (if f.group.None? || f.group.value == map[] then {"group"} else {})
  }

  function BuildTagGroupBy(f: TagGroupByFields): (r: Outcome<QueryGroupBy>)
    ensures r.Ok? <==> f.tags.Some? && f.tags.value != [] && f.group.Some? && f.group.value != map[]
    ensures r.Err? ==> r.error.ConstraintsViolated?
                       && ("tags" in r.error.fields <==> f.tags.None? || f.tags.value == [])
                       && ("group" in r.error.fields <==> f.group.None? || f.group.value == map[])
                       && r.error.fields <= {"tags", "group"}
    ensures r.Ok? ==> r.value.QueryTagGroupBy? && r.value.tags == f.tags.value && r.value.group == f.group.value
  {
    var v := TagGroupByViolations(f);
    if v == {} then Ok(QueryTagGroupBy(f.tags.value, f.group.value))
    else Err(ConstraintsViolated(v))
  }

  /** `@NotNull @NotEmpty` on `_type`. */
  function TypeGroupByViolations(f: TypeGroupByFields): set<string>
  {
    if f.groupType.None? || f.groupType.value == "" then {"type"} else {}
  }

  function BuildTypeGroupBy(f: TypeGroupByFields): (r: Outcome<QueryGroupBy>)
    ensures r.Ok? <==> f.groupType.Some? && f.groupType.value != ""
    ensures r.Err? ==> r.error == ConstraintsViolated({"type"})
    ensures r.Ok? ==> r.value.QueryTypeGroupBy? && r.value.groupType == f.groupType.value
  {
    var v := TypeGroupByViolations(f);
    if v == {} then Ok(QueryTypeGroupBy(f.groupType.value))
    else Err(ConstraintsViolated(v))
  }

  // ---------------------------------------------------------------------
  // DataPoint wire form: the pair [epochMillis, value]
  // ---------------------------------------------------------------------

  /** `DataPoint.serialize`. */
  function Serialize(p: DataPoint): seq<NonNullValue>
  {
    [LongNum(p.time.millis), p.value]
  }

  /** The builder's list constructor: element 0 is cast to `long` and made a
      `DateTime`, element 1 is taken as the value. */
  function DataPointFieldsFromList(arr: seq<Value>): Outcome<DataPointFields>
  {
    if |arr| == 0 then Err(IndexOutOfBounds(0))
    else match arr[0]
      case Null => Err(NullPointer)
      case LongNum(t) =>
        if |arr| < 2 then Err(IndexOutOfBounds(1))
        else Ok(DataPointFields(Some(DateTime(t)), arr[1]))
      case _ => Err(ClassCast)
  }

  /** Deserialisation: the list constructor followed by `build()`. */
  function Deserialize(arr: seq<Value>): (r: Outcome<DataPoint>)
    ensures r.Ok? <==> |arr| >= 2 && arr[0].LongNum? && !arr[1].Null?
    ensures |arr| == 0 ==> r == Err(IndexOutOfBounds(0))
    ensures |arr| > 0 && arr[0].Null? ==> r == Err(NullPointer)
    ensures |arr| > 0 && !arr[0].Null? && !arr[0].LongNum? ==> r == Err(ClassCast)
    ensures |arr| == 1 && arr[0].LongNum? ==> r == Err(IndexOutOfBounds(1))
    ensures |arr| >= 2 && arr[0].LongNum? && arr[1].Null? ==> r == Err(ConstraintsViolated({"value"}))
    ensures r.Ok? ==> r.value.time.millis == arr[0].n && r.value.value == arr[1]
  {
    match DataPointFieldsFromList(arr)
    case Err(e) => Err(e)
    case Ok(f) => BuildDataPoint(f)
  }

  /** Serialising then deserialising a point gives the same point. */
  lemma SerializeThenDeserialize(p: DataPoint)
    ensures |Serialize(p)| == 2
    ensures Deserialize(Serialize(p)) == Ok(p)
  {
  }

  /** Deserialising a pair that is accepted and serialising the point gives
      back the pair; a longer list gives back its first two elements. */
  lemma DeserializeThenSerialize(arr: seq<Value>)
    requires Deserialize(arr).Ok?
    ensures Serialize(Deserialize(arr).value) == arr[..2]
  {
    assert arr[..2] == [arr[0], arr[1]];
  }
}
