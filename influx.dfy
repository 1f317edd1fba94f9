/** The query-pipeline builder InfluxQuery: a stateful object that collects
    Flux text fragments and hands their join to the query API. */
module Influx {
  import opened Flux

  /** What the query API gives back: the result tables, or the error it raises. */
  datatype Result<T, E> = Ok(value: T) | Err(error: E)

  /** The query client. `queryApi` stands for `QueryApi.query`, seen as a
      function of the query text and the organisation. The ghost `ranges`
      holds the start bounds of the `range` calls since the last reset, and
      the ghost `sent` logs every query text handed to the query API. */
  class InfluxQuery<T, E> {
    const queryApi: (string, string) -> Result<T, E>
    const bucket: string
    const org: string

    var pipeline: seq<string>
    /** Filter lines are collected here but never read: none is joined into a query. */
    var filters: seq<string>

    ghost var ranges: seq<string>
    ghost var sent: seq<string>

    /** The pipeline is the seed line followed by one line per `range` call,
        and `filters` holds only `filter` steps. */
    ghost predicate Valid()
      reads this
    {
      && pipeline == Pipeline(bucket, ranges)
      && forall f :: f in filters ==> IsFilterStep(f)
    }

    /** The dead list as a class invariant: no recorded filter line is part
        of the pipeline that `aggregate` joins. */
    lemma FiltersNotInPipeline()
      requires Valid()
      ensures forall f :: f in filters ==> f !in pipeline
    {
      forall f | f in filters
        ensures f !in pipeline
      {
        FilterLinesNotInPipeline(bucket, ranges, f);
      }
    }

    constructor (queryApi: (string, string) -> Result<T, E>, bucket: string, org: string)
      ensures Valid()
      ensures this.queryApi == queryApi && this.bucket == bucket && this.org == org
      ensures pipeline == [SourceLine(bucket)] && filters == [] && ranges == []
      ensures sent == []
      ensures forall f :: f in filters ==> f !in pipeline
    {
      this.queryApi := queryApi;
      this.bucket := bucket;
      this.org := org;
      pipeline := [];
      filters := [];
      ranges := [];
      sent := [];
      new;
      Reset();
    }

    /** `_reset`: reseeds the pipeline with the `from` line and drops all filters. */
    method Reset()
      modifies this`pipeline, this`filters, this`ranges
      ensures Valid()
      ensures pipeline == [SourceLine(bucket)] && filters == [] && ranges == []
      ensures forall f :: f in filters ==> f !in pipeline
    {
      pipeline := [SourceLine(bucket)];
      filters := [];
      ranges := [];
    }

    /** `_query`: hands one query text and the organisation to the query API. */
    method Query(query: string) returns (results: Result<T, E>)
      modifies this`sent
      ensures results == queryApi(query, org)
      ensures sent == old(sent) + [query]
    {
      results := queryApi(query, org);
      sent := sent + [query];
    }

    /** `get`: the same call as `aggregate`. */
    method Get() returns (results: Result<T, E>)
      requires Valid()
      modifies this
      ensures Valid()
      ensures results == queryApi(QueryText(bucket, old(ranges)), org)
      ensures sent == old(sent) + [QueryText(bucket, old(ranges))]
      ensures sent == old(sent) + [Concat(old(pipeline))]
      ensures results.Ok? ==> pipeline == [SourceLine(bucket)] && filters == [] && ranges == []
      ensures results.Err? ==>
                pipeline == old(pipeline) && filters == old(filters) && ranges == old(ranges)
      ensures forall f :: f in filters ==> f !in pipeline
    {
      results := Aggregate();
    }

    /** `aggregate`: joins the pipeline, queries with that text and resets.
        An error from the query API propagates before the reset, so the
        pipeline and the filters are then left as they were. */
    method Aggregate() returns (results: Result<T, E>)
      requires Valid()
      modifies this
      ensures Valid()
      ensures results == queryApi(QueryText(bucket, old(ranges)), org)
      ensures sent == old(sent) + [QueryText(bucket, old(ranges))]
      ensures sent == old(sent) + [Concat(old(pipeline))]
      ensures results.Ok? ==> pipeline == [SourceLine(bucket)] && filters == [] && ranges == []
      ensures results.Err? ==>
                pipeline == old(pipeline) && filters == old(filters) && ranges == old(ranges)
      ensures forall f :: f in filters ==> f !in pipeline
    {
      var query := Concat(pipeline);
      assert query == QueryText(bucket, ranges);
      results := Query(query);
      if results.Err? {
        FiltersNotInPipeline();
        return;
      }
      Reset();
    }

    /** `range`: appends one `range` step to the pipeline. */
    method Range(start: string) returns (self: InfluxQuery<T, E>)
      requires Valid()
      modifies this`pipeline, this`ranges
      ensures Valid() && self == this
      ensures pipeline == old(pipeline) + [RangeLine(start)]
      ensures ranges == old(ranges) + [start]
      ensures filters == old(filters) && sent == old(sent)
      ensures forall f :: f in filters ==> f !in pipeline
    {
      PipelineAppend(bucket, ranges, start);
      pipeline := pipeline + [RangeLine(start)];
      ranges := ranges + [start];
      FiltersNotInPipeline();
      self := this;
    }

    /** `measurement`: appends a `_measurement` filter line to `filters` only. */
    method Measurement(measurement: string) returns (self: InfluxQuery<T, E>)
      requires Valid()
      modifies this`filters
      ensures Valid() && self == this
      ensures filters == old(filters) + [MeasurementFilter(measurement)]
      ensures pipeline == old(pipeline) && ranges == old(ranges)
      ensures MeasurementFilter(measurement) !in pipeline
      ensures forall f :: f in filters ==> f !in pipeline
    {
      FilterLinesNotInPipeline(bucket, ranges, MeasurementFilter(measurement));
      filters := filters + [MeasurementFilter(measurement)];
      FiltersNotInPipeline();
      self := this;
    }

    /** `tag`: appends a tag/value filter line to `filters` only. */
    method Tag(tag: string, value: string) returns (self: InfluxQuery<T, E>)
      requires Valid()
      modifies this`filters
      ensures Valid() && self == this
      ensures filters == old(filters) + [TagFilter(tag, value)]
      ensures pipeline == old(pipeline) && ranges == old(ranges)
      ensures TagFilter(tag, value) !in pipeline
      ensures forall f :: f in filters ==> f !in pipeline
    {
      FilterLinesNotInPipeline(bucket, ranges, TagFilter(tag, value));
      filters := filters + [TagFilter(tag, value)];
      FiltersNotInPipeline();
      self := this;
    }

    /** `field`: appends a `_field` filter line to `filters` only. */
    method Field(field: string) returns (self: InfluxQuery<T, E>)
      requires Valid()
      modifies this`filters
      ensures Valid() && self == this
      ensures filters == old(filters) + [FieldFilter(field)]
      ensures pipeline == old(pipeline) && ranges == old(ranges)
      ensures FieldFilter(field) !in pipeline
      ensures forall f :: f in filters ==> f !in pipeline
    {
      FilterLinesNotInPipeline(bucket, ranges, FieldFilter(field));
      filters := filters + [FieldFilter(field)];
      FiltersNotInPipeline();
      self := this;
    }
  }

  /** A client session on the bucket of the repository's manual script:
      a range, a measurement filter and a field filter, chained, then `get`.
      The query API receives the `from` and `range` lines only. */
  method SmartSectorSession<T, E>(queryApi: (string, string) -> Result<T, E>, org: string)
    returns (results: Result<T, E>)
    ensures results == queryApi(SourceLine("smart_sector_history") + RangeLine("-10d"), org)
  {
    var client := new InfluxQuery(queryApi, "smart_sector_history", org);
    var q := client.Range("-10d");
    q := q.Measurement("measurement1");
    q := q.Field("field1");
    results := q.Get();
    QueryTextAppend("smart_sector_history", [], "-10d");
    assert [] + ["-10d"] == ["-10d"];
  }
}
