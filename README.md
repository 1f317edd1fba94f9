# InfluxQuery: a verified model of the Flux query builder

This project models `InfluxQuery` from `src/influx.py`, the query client of a
small InfluxDB helper library. An `InfluxQuery` builds the text of a Flux
query, which is InfluxDB's query language. It keeps that text as a list of
one-line fragments called `pipeline`:

- `_reset` seeds `pipeline` with `from(bucket: "<bucket>")\n` and empties a
  second list, `filters`.
- `range` appends a `|> range(start: <start>)\n` line to `pipeline`.
- `measurement`, `tag` and `field` append `|> filter(...)` lines to `filters`.
- `aggregate` (and its alias `get`) joins `pipeline` into one text and hands
  it, with the organisation, to the query API. It then resets and returns the
  API's result.

`filters` is never read. No line of `filters` is ever joined into a query.
The model keeps this dead list as the code has it. It proves that the list
never affects the text sent, and that no `filters` entry is ever among the
fragments of the pipeline.

Layout:

- `flux.dfy`, module `Flux`: pure text functions. It holds the join
  (`Concat`), the exact line templates, and the query text that a pipeline
  denotes. `QueryText(bucket, ranges)` is the text for a reset followed by
  `range` calls with those start bounds. The lemmas about these functions are
  here too.
- `influx.dfy`, module `Influx`: the class `InfluxQuery` with the fields the
  source has: `bucket`, `org`, `pipeline`, `filters`. The query API is a
  constant function value `queryApi`. Two ghost fields record state for the
  proofs. `ranges` holds the start bounds of the `range` calls since the last
  reset. `sent` logs every query text handed to the query API. The invariant
  `Valid()` states `pipeline == Pipeline(bucket, ranges)` and that `filters`
  holds only `filter` steps; every method then keeps the fact that no line of
  `filters` is in `pipeline`.

The string literals match the source character for character. That includes
the spacing difference between `fn: (r)` in `measurement` and `fn:(r)` in
`tag` and `field`. Start bounds, tag names and values are spliced in verbatim,
with no escaping.

The query API can raise an exception. The model represents this as the `Err`
case of `Result`. When it happens, `aggregate` never reaches `_reset`, so
`pipeline` and `filters` are left as they were. This follows the statement
order at `src/influx.py:66-68`.

The code builds the query from string fragments only; there is no
instruction or expression grammar. Filter lines are collected in `filters` and
are never joined into the query.

## Model

| member | source | states |
|---|---|---|
| `Flux.Concat` | src/influx.py:66 | `"".join`: the first fragment is a prefix of the joined text and the last fragment is a suffix of it |
| `Flux.ConcatAppend` | src/influx.py:66 | joining two runs of fragments equals joining each run and appending the results |
| `Flux.SourceLine` | src/influx.py:52 | the seed line starts with `from(bucket: "`, is not a pipe step, and is a single newline-terminated line exactly when the bucket name has no newline |
| `Flux.RangeLine` | src/influx.py:73 | the `range` line is a pipe-forward `range(` step and is a single line exactly when the start bound has no newline |
| `Flux.MeasurementFilter` | src/influx.py:78 | the `measurement` line is a pipe-forward `filter(` step and is a single line exactly when the measurement name has no newline |
| `Flux.TagFilter` | src/influx.py:83 | the `tag` line is a pipe-forward `filter(` step and is a single line exactly when neither the tag nor the value has a newline |
| `Flux.FieldFilter` | src/influx.py:88 | the `field` line is a pipe-forward `filter(` step and is a single line exactly when the field name has no newline |
| `Flux.RangeLines` | src/influx.py:73 | one `range` line per start bound, in call order |
| `Flux.Pipeline` | src/influx.py:50-74 | after a reset and some `range` calls, the pipeline is the seed line followed by one `range` line per call, in order |
| `Flux.QueryText` | src/influx.py:64-66 | the query text always starts with the `from(bucket: ...)` line; with no `range` calls it is exactly that line; otherwise it ends with the line of the last `range` call |
| `Flux.FilterLinesNotInPipeline` | src/influx.py:76-89 | no `filter(` step, and so no line that `measurement`, `tag` or `field` records, is ever an element of a pipeline built by a reset and `range` calls |
| `Flux.PipelineAppend` | src/influx.py:71-74 | a `range` call adds its line at the end of the pipeline and changes nothing else |
| `Flux.QueryTextAppend` | src/influx.py:71-74 | a `range` call extends the query text by exactly its own line |
| `Flux.QueryLineCount` | src/influx.py:52-73 | if neither the bucket nor any start bound contains a newline, the query text has exactly one line per pipeline element |
| `Influx.InfluxQuery.constructor` | src/influx.py:41-48 | keeps the query API, bucket and org; `pipeline` is exactly the seed line, `filters` is empty, nothing has been sent |
| `Influx.InfluxQuery.FiltersNotInPipeline` | src/influx.py:66-88 | under the class invariant, no line recorded in `filters` is an element of `pipeline`, so no `filters` entry is among the fragments `aggregate` joins |
| `Influx.InfluxQuery.Reset` | src/influx.py:50-53 | `pipeline` becomes exactly the seed line for the unchanged bucket and `filters` becomes empty |
| `Influx.InfluxQuery.Query` | src/influx.py:55-57 | passes the text and `org` to the query API and returns its result unchanged |
| `Influx.InfluxQuery.Aggregate` | src/influx.py:64-69 | sends `Concat(pipeline)`, the in-order join of the pipeline, which equals `QueryText(bucket, ranges)`, and returns the API's result; on success it resets to the seed line with empty `filters`; on an error it leaves `pipeline` and `filters` as they were; no filter line is in the pipeline afterwards; bucket and org are constant |
| `Influx.InfluxQuery.Get` | src/influx.py:59-61 | the same contract as `Aggregate` |
| `Influx.InfluxQuery.Range` | src/influx.py:71-74 | appends exactly `RangeLine(start)` to `pipeline`, leaves earlier lines and `filters` unchanged, keeps every filter line out of the pipeline, and returns the same object |
| `Influx.InfluxQuery.Measurement` | src/influx.py:76-79 | appends exactly `MeasurementFilter(measurement)` to `filters`, leaves `pipeline` unchanged and without that line, and returns the same object |
| `Influx.InfluxQuery.Tag` | src/influx.py:81-84 | appends exactly `TagFilter(tag, value)` to `filters`, leaves `pipeline` unchanged and without that line, and returns the same object |
| `Influx.InfluxQuery.Field` | src/influx.py:86-89 | appends exactly `FieldFilter(field)` to `filters`, leaves `pipeline` unchanged and without that line, and returns the same object |
| `Influx.SmartSectorSession` | src/influx.py:64-89 | a chained session on bucket `smart_sector_history`: `range("-10d")`, then `measurement`, then `field`, then `get`. The query API receives only the `from` line followed by the `range` line; the filters are absent |

## Left out

- `InfluxService` and `InfluxWrite` (`src/influx.py:12-37`) are not part of this model. They only construct and call `influxdb_client` objects, which cannot be seen here.
- `QueryApi.query` is not modelled as a network call. It is a fixed function of the query text and the organisation that returns either tables or an error. Results that change over time, and transport details, are not captured.
- The contents of `TableList`, and the printing of records, are not modelled. The result type is a type parameter.
- `src/test.py` is a manual script that talks to a live database, so it is not modelled. It also calls `filter`, `sort`, `limit` and `_parse`, and `InfluxQuery` defines none of them. `SmartSectorSession` reuses the script's bucket name and only the calls that exist.
- Influx.SmartSectorSession: states the text sent as `SourceLine("smart_sector_history") + RangeLine("-10d")` rather than as a single written-out string literal. Comparing long string literals character by character is too costly for the verifier.
- `bucket`, `org` and the query API are `const` fields, because no method of the class reassigns them. Assignments to these attributes from outside the class, which Python permits, are not modelled.
- Concurrent use of one builder is not modelled. The source has no synchronisation.
- `pipeline` and `filters` are public lists in the source, grown in place with `+=`, and a caller could edit them directly; `aggregate` would then send whatever `pipeline` holds. The model keeps such edits outside the class invariant `Valid()`, which `Aggregate` requires. No caller in the source edits them.
