# Metrics portal query results: records, builders, diff transform, disabled executor

This project models three pieces of the query path of the metrics portal:

- the immutable records of a metrics query response (`DefaultMetricsQueryResult`
  and its nested `Query`, `Result`, `DataPoint`, `QueryTagGroupBy` and
  `QueryTypeGroupBy`) together with their builders, whose `build()` validates
  the required fields, and the `[epochMillis, value]` wire form of a data point;
- the diff aggregator, which turns the points of one series into the changes
  between adjacent points and leaves every other field of the series alone;
- the query executor used when queries are disabled, which fails every call
  with the single reason "Queries are not enabled".

Layout:

- `exceptions.dfy` (module `Exceptions`): `Option`, the Java exceptions the
  code throws, and `Outcome<T>`, a call that returned or threw.
- `metrics_query_result.dfy` (module `MetricsQueryResults`): the records as
  datatypes, the field values each builder holds (`ResultFields`, ...), the
  validation of each `build()` as a pure function (`BuildResult`, ...),
  `addOtherArg` on the extra-argument map (`PutOtherArg`), data point
  serialisation and deserialisation, and the lemmas about them.
- `metrics_query_result_builders.dfy` (module `MetricsQueryResultBuilders`):
  one class per builder. Setters assign one field (`modifies` names only
  that field); `Build` is specified by the pure build function of the
  builder's `State()`.
- `diff_aggregator.dfy` (module `DiffAggregator`): `TransformQueryResult`,
  the loop of the source, proved equal to the recursive `Diff`, whose own
  contract gives the length, timestamps and values of the output.
- `no_query_executor.dfy` (module `NoQueryExecutor`): `ExecuteQuery`.

Modelling choices:

- A Java `Object` value is `Value`: `Null`, a `LongNum`, a `DoubleNum`, or
  `NonNumeric`. `Number` means `LongNum` or `DoubleNum`. A built data
  point's value is a `NonNullValue` because `build()` checks `@NotNull` on
  the value field, and `BuildDataPoint` refuses `Null`. Extra-argument
  values are `NonNullValue` because Guava's `ImmutableMap` refuses null
  values, and `PutOtherArg` throws NullPointer for them.
- `double` is `real`, and `long` is the subset type `Long` (range only).
- `DateTime` is its epoch milliseconds.
- OVal's `build()` failure is `ConstraintsViolated(fields)`: the set of
  builder fields that break an annotation (`@NotNull`, `@NotEmpty`, `@Min(0)`).
- The tag multimap is its list of `(name, value)` entries, and it is empty
  when that list is. The extra-argument map is a Dafny `map`.
- `AlertTrigger` and the executor's `TimeSeriesResult` are abstract types.

## Model

| member | source | states |
|---|---|---|
| `MetricsQueryResults.PutOtherArg` | app/models/internal/impl/DefaultMetricsQueryResult.java:82-86 | adding an extra argument succeeds exactly for a non-null value under a new key. The result is the old map plus that one entry, with every earlier entry unchanged. A null value throws NullPointer and a duplicate key throws DuplicateKey |
| `MetricsQueryResults.PutOtherArgTwice` | app/models/internal/impl/DefaultMetricsQueryResult.java:268-272 | a key added once cannot be added again: the second add throws |
| `MetricsQueryResults.BuildEnvelope` | app/models/internal/impl/DefaultMetricsQueryResult.java:54-102 | building the envelope fails, naming `queries`, exactly when the queries were never set. Otherwise the getters return the builder's queries and extra arguments |
| `MetricsQueryResults.BuildQuery` | app/models/internal/impl/DefaultMetricsQueryResult.java:111-191 | building a query fails exactly when the results are missing or the sample size is negative. The violation set names exactly the offending fields. Otherwise the getters return the builder's fields |
| `MetricsQueryResults.QuerySampleSizeDefaultsToZero` | app/models/internal/impl/DefaultMetricsQueryResult.java:186-191 | a query built with only its results has sample size 0 and no extra arguments |
| `MetricsQueryResults.BuildResult` | app/models/internal/impl/DefaultMetricsQueryResult.java:232-355 | building a result fails exactly when the name is missing or empty or the tag multimap is empty, and names exactly those fields. Otherwise every getter returns the builder's value and the result is valid |
| `MetricsQueryResults.ResultDefaultsEmpty` | app/models/internal/impl/DefaultMetricsQueryResult.java:345-355 | a result built with only a name and tags has empty values, group-bys, alerts and extra arguments |
| `MetricsQueryResults.CloneBuildRoundTrip` | app/com/arpnetworking/metrics/portal/query/impl/mql/DiffAggregator.java:47-49 | cloning a result into a builder and building gives the same result exactly when the result is valid |
| `MetricsQueryResults.BuildDataPoint` | app/models/internal/impl/DefaultMetricsQueryResult.java:381-440 | building a data point fails exactly when the time or the value is missing, naming exactly those fields. Otherwise its getters return the builder's time and value |
| `MetricsQueryResults.BuildTagGroupBy` | app/models/internal/impl/DefaultMetricsQueryResult.java:495-553 | a tag group-by builds exactly when its tags and its group map are both present and non-empty. The result is the tag variant and keeps both fields |
| `MetricsQueryResults.BuildTypeGroupBy` | app/models/internal/impl/DefaultMetricsQueryResult.java:567-609 | a type group-by builds exactly when its type is present and non-empty. The result is the type variant and keeps that type |
| `MetricsQueryResults.Deserialize` | app/models/internal/impl/DefaultMetricsQueryResult.java:407-413 | reading a point from a list succeeds exactly for at least two elements with a `long` first and a non-null second, and gives that time and value. Each failure has its own exception: an empty list, a null or non-`long` first element, a missing second element, a null value |
| `MetricsQueryResults.Serialize` | app/models/internal/impl/DefaultMetricsQueryResult.java:377-379 | a point becomes the pair `[millis, value]`. Together with `Deserialize`'s contract, `SerializeThenDeserialize` and `DeserializeThenSerialize` fix both elements |
| `MetricsQueryResults.SerializeThenDeserialize` | app/models/internal/impl/DefaultMetricsQueryResult.java:377-379 | a point serialises to a two-element list, and reading that list back gives the same point |
| `MetricsQueryResults.DeserializeThenSerialize` | app/models/internal/impl/DefaultMetricsQueryResult.java:377-413 | serialising a point read from a list gives back the first two elements of that list |
| `MetricsQueryResultBuilders.EnvelopeBuilder.constructor` | app/models/internal/impl/DefaultMetricsQueryResult.java:71-102 | a new envelope builder has no queries and no extra arguments |
| `MetricsQueryResultBuilders.EnvelopeBuilder.AddOtherArg` | app/models/internal/impl/DefaultMetricsQueryResult.java:82-86 | on success the map becomes `PutOtherArg`'s result. On an exception the map is unchanged and the exception is reported. No other field changes |
| `MetricsQueryResultBuilders.EnvelopeBuilder.SetQueries` | app/models/internal/impl/DefaultMetricsQueryResult.java:94-97 | sets the queries and nothing else |
| `MetricsQueryResultBuilders.EnvelopeBuilder.Build` | app/models/internal/impl/DefaultMetricsQueryResult.java:54-57 | returns or throws as `BuildEnvelope` of the builder's fields |
| `MetricsQueryResultBuilders.QueryBuilder.constructor` | app/models/internal/impl/DefaultMetricsQueryResult.java:146-191 | a new query builder has no results, sample size 0 and no extra arguments |
| `MetricsQueryResultBuilders.QueryBuilder.AddOtherArg` | app/models/internal/impl/DefaultMetricsQueryResult.java:157-161 | as the envelope builder's `AddOtherArg` |
| `MetricsQueryResultBuilders.QueryBuilder.SetSampleSize` | app/models/internal/impl/DefaultMetricsQueryResult.java:169-173 | sets the sample size and nothing else |
| `MetricsQueryResultBuilders.QueryBuilder.SetResults` | app/models/internal/impl/DefaultMetricsQueryResult.java:181-184 | sets the results and nothing else |
| `MetricsQueryResultBuilders.QueryBuilder.Build` | app/models/internal/impl/DefaultMetricsQueryResult.java:111-115 | returns or throws as `BuildQuery` of the builder's fields |
| `MetricsQueryResultBuilders.ResultBuilder.constructor` | app/models/internal/impl/DefaultMetricsQueryResult.java:257-355 | a new result builder has no name and empty values, extra arguments, alerts, tags and group-bys |
| `MetricsQueryResultBuilders.ResultBuilder.Clone` | app/com/arpnetworking/metrics/portal/query/impl/mql/DiffAggregator.java:47 | a cloned builder holds every field of the given result |
| `MetricsQueryResultBuilders.ResultBuilder.AddOtherArg` | app/models/internal/impl/DefaultMetricsQueryResult.java:268-272 | as the envelope builder's `AddOtherArg` |
| `MetricsQueryResultBuilders.ResultBuilder.SetOtherArgs` | app/models/internal/impl/DefaultMetricsQueryResult.java:280-284 | replaces the whole extra-argument map and nothing else |
| `MetricsQueryResultBuilders.ResultBuilder.SetValues` | app/models/internal/impl/DefaultMetricsQueryResult.java:292-295 | sets the values and nothing else |
| `MetricsQueryResultBuilders.ResultBuilder.SetName` | app/models/internal/impl/DefaultMetricsQueryResult.java:303-306 | sets the name and nothing else |
| `MetricsQueryResultBuilders.ResultBuilder.SetTags` | app/models/internal/impl/DefaultMetricsQueryResult.java:314-317 | sets the tags and nothing else |
| `MetricsQueryResultBuilders.ResultBuilder.SetAlerts` | app/models/internal/impl/DefaultMetricsQueryResult.java:325-328 | sets the alerts and nothing else |
| `MetricsQueryResultBuilders.ResultBuilder.SetGroupBy` | app/models/internal/impl/DefaultMetricsQueryResult.java:336-339 | sets the group-bys and nothing else |
| `MetricsQueryResultBuilders.ResultBuilder.Build` | app/models/internal/impl/DefaultMetricsQueryResult.java:232-239 | returns or throws as `BuildResult` of the builder's fields |
| `MetricsQueryResultBuilders.DataPointBuilder.constructor` | app/models/internal/impl/DefaultMetricsQueryResult.java:398-400 | a new data point builder has neither time nor value |
| `MetricsQueryResultBuilders.DataPointBuilder.FromList` | app/models/internal/impl/DefaultMetricsQueryResult.java:407-413 | throws the exception that reading the list throws. Otherwise it gives a fresh builder holding the list's time and value |
| `MetricsQueryResultBuilders.DataPointBuilder.SetTime` | app/models/internal/impl/DefaultMetricsQueryResult.java:421-424 | sets the time and nothing else |
| `MetricsQueryResultBuilders.DataPointBuilder.SetValue` | app/models/internal/impl/DefaultMetricsQueryResult.java:432-435 | sets the value and nothing else |
| `MetricsQueryResultBuilders.DataPointBuilder.Build` | app/models/internal/impl/DefaultMetricsQueryResult.java:381-384 | returns or throws as `BuildDataPoint` of the builder's fields |
| `MetricsQueryResultBuilders.TagGroupByBuilder.constructor` | app/models/internal/impl/DefaultMetricsQueryResult.java:513-515 | a new tag group-by builder has neither tags nor group |
| `MetricsQueryResultBuilders.TagGroupByBuilder.SetTags` | app/models/internal/impl/DefaultMetricsQueryResult.java:523-526 | sets the tags and nothing else |
| `MetricsQueryResultBuilders.TagGroupByBuilder.SetGroup` | app/models/internal/impl/DefaultMetricsQueryResult.java:534-537 | sets the group and nothing else |
| `MetricsQueryResultBuilders.TagGroupByBuilder.Build` | app/models/internal/impl/DefaultMetricsQueryResult.java:495-499 | returns or throws as `BuildTagGroupBy` of the builder's fields |
| `MetricsQueryResultBuilders.TypeGroupByBuilder.constructor` | app/models/internal/impl/DefaultMetricsQueryResult.java:583-585 | a new type group-by builder has no type |
| `MetricsQueryResultBuilders.TypeGroupByBuilder.SetType` | app/models/internal/impl/DefaultMetricsQueryResult.java:593-596 | sets the type and nothing else |
| `MetricsQueryResultBuilders.TypeGroupByBuilder.Build` | app/models/internal/impl/DefaultMetricsQueryResult.java:567-570 | returns or throws as `BuildTypeGroupBy` of the builder's fields |
| `DiffAggregator.Diff` | app/com/arpnetworking/metrics/portal/query/impl/mql/DiffAggregator.java:32-45 | the diff of `n` points succeeds exactly when every value is a number, and otherwise throws ClassCast. It has `max(n-1, 0)` points, so none for zero or one input point. Output point `i` has the time of input point `i+1` and value `v[i+1] - v[i]` |
| `DiffAggregator.TransformQueryResult` | app/com/arpnetworking/metrics/portal/query/impl/mql/DiffAggregator.java:29-50 | the transform succeeds exactly when every value is a number and the input result is valid. Non-numeric values throw ClassCast, and an invalid input throws build's violation. On success the output is the input with only `values` replaced by `Diff`: name, tags, group-bys, alerts and extra arguments are unchanged |
| `DiffAggregator.DiffTimesAreTail` | app/com/arpnetworking/metrics/portal/query/impl/mql/DiffAggregator.java:36-41 | the output timestamps are the input's with the first one dropped |
| `DiffAggregator.DiffKeepsAscending` | app/com/arpnetworking/metrics/portal/query/impl/mql/DiffAggregator.java:39 | non-decreasing input timestamps (duplicates allowed) give non-decreasing output timestamps |
| `DiffAggregator.DiffExample` | app/com/arpnetworking/metrics/portal/query/impl/mql/DiffAggregator.java:33-45 | points valued 10, 15, 12 at t0, t1, t2 give 5 at t1 and -3 at t2 |
| `NoQueryExecutor.ExecuteQuery` | app/com/arpnetworking/metrics/portal/query/impl/NoQueryExecutor.java:34-35 | every call throws an execution exception and no result is produced. Its error list has exactly one element, "Queries are not enabled", which meets the executor contract of a non-empty list of reasons |
| `NoQueryExecutor.ExecuteQueryIgnoresQuery` | app/com/arpnetworking/metrics/portal/query/impl/NoQueryExecutor.java:34-35 | the outcome is the same for every query string |

## Left out

- Floating point: `double` arithmetic is modelled on `real`, so IEEE rounding and `Number.doubleValue()` rounding of large `long`s are not captured.
- Null arguments passed to setters: `DataPointBuilder.SetValue` and every `AddOtherArg` accept a `Null` value and model what Java does with it. Every other setter takes a non-null argument, so a field other than the data point value can be null (`None`) only when it was never set.
- A null key passed to `addOtherArg`, which Guava's `put` refuses with a NullPointerException: the key is a non-null `string`.
- OVal internals: which constraint a null or empty field breaks is not modelled, only which fields break one. `@NotEmpty` is taken to mean "has at least one entry" on the `Result` tag multimap, on the `QueryTagGroupBy` tags list and on its group map. This follows the setters' documentation, "Cannot be null or empty".
- Insertion order of the extra-argument maps and of the `QueryTagGroupBy` group map. Guava's `ImmutableMap` keeps that order, a Dafny `map` does not, and nothing in the model reads it. The time zone and chronology of `DateTime` are also not modelled.
- Jackson: the `@JsonAnyGetter`/`@JsonAnySetter`/`@JsonProperty` serialisation of the records, and the group-by discriminator on the wire, are reflective library behaviour. Only `DataPoint`'s explicit serialise and list constructor are modelled.
- Numbers other than `Long` and `Double` (`Integer` and others) are folded into those two, so the list constructor's cast of an `Integer` time is not modelled.
- Builder chaining: setters return the builder in Java; here they return nothing.
- `ResultBuilder.Clone`: the generic `OvalBuilder.clone` is not part of this model. It is modelled as copying each getter of the result into the matching setter.
- The base class `TransformAggregator`, which applies `transformQueryResult` to each result, is not part of this model. Neither are the query executor interface and `TimeSeriesResult`.
