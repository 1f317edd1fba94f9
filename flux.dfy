/** The Flux text that InfluxQuery assembles: the join of pipeline fragments,
    the fixed line templates each builder method emits, and the query text a
    pipeline denotes. Everything here is pure; the stateful builder is in
    module Influx. */
module Flux {

  /** `"".join(parts)`: the fragments in order, with nothing in between. */
  function Concat(parts: seq<string>): (text: string)
    ensures parts != [] ==> parts[0] <= text
    ensures parts != [] ==> EndsWith(text, parts[|parts| - 1])
  {
    if parts == [] then "" else parts[0] + Concat(parts[1..])
  }

  predicate EndsWith(s: string, suffix: string) {
    |suffix| <= |s| && s[|s| - |suffix|..] == suffix
  }

  predicate NoNewline(s: string) {
    '\n' !in s
  }

  /** One line of query text: it ends in a newline and holds no other. */
  predicate IsLine(s: string) {
    |s| > 0 && s[|s| - 1] == '\n' && NoNewline(s[..|s| - 1])
  }

  /** A Flux pipe-forward step: `|> ` followed by a call. */
  predicate IsPiped(s: string) {
    "|> " <= s
  }

  /** A pipe-forward step calling `range`. */
  predicate IsRangeStep(s: string) {
    "|> range(" <= s
  }

  /** A pipe-forward step calling `filter`. */
  predicate IsFilterStep(s: string) {
    "|> filter(" <= s
  }

  /** An argument spliced between a newline-free prefix and a one-line
      suffix gives one line exactly when the argument has no newline. */
  lemma SplicedLine(prefix: string, arg: string, suffix: string)
    requires IsLine(suffix)
    ensures prefix <= prefix + arg + suffix
    ensures IsLine(prefix + arg + suffix) <==> NoNewline(prefix) && NoNewline(arg)
  {
    var t := prefix + arg + suffix;
    assert t[..|t| - 1] == prefix + arg + suffix[..|suffix| - 1];
  }

  /** The seed line `from(bucket: "<bucket>")\n` written by `_reset`. */
  function SourceLine(bucket: string): (line: string)
    ensures "from(bucket: \"" <= line && !IsPiped(line)
    ensures IsLine(line) <==> NoNewline(bucket)
  {
    SplicedLine("from(bucket: \"", bucket, "\")\n");
    var line := "from(bucket: \"" + bucket + "\")\n";
    assert line[0] == 'f';
    line
  }

  /** The line `|> range(start: <start>)\n` appended by `range`; the start
      bound is inserted verbatim, without quotes. */
  function RangeLine(start: string): (line: string)
    ensures IsPiped(line) && IsRangeStep(line)
    ensures IsLine(line) <==> NoNewline(start)
  {
    SplicedLine("|> range(start: ", start, ")\n");
    "|> range(start: " + start + ")\n"
  }

  /** The line appended to `filters` by `measurement`; note `fn: (r)` with a space. */
  function MeasurementFilter(measurement: string): (line: string)
    ensures IsPiped(line) && IsFilterStep(line)
    ensures IsLine(line) <==> NoNewline(measurement)
  {
    SplicedLine("|> filter(fn: (r) => r._measurement == \"", measurement, "\")\n");
    "|> filter(fn: (r) => r._measurement == \"" + measurement + "\")\n"
  }

  /** The line appended to `filters` by `tag`; `fn:(r)` without a space, the
      tag name unquoted and the value quoted. */
  function TagFilter(tag: string, value: string): (line: string)
    ensures IsPiped(line) && IsFilterStep(line)
    ensures IsLine(line) <==> NoNewline(tag) && NoNewline(value)
  {
    SplicedLine("|> filter(fn:(r) => r." + tag + " == \"", value, "\")\n");
    "|> filter(fn:(r) => r." + tag + " == \"" + value + "\")\n"
  }

  /** The line appended to `filters` by `field`; `fn:(r)` without a space. */
  function FieldFilter(field: string): (line: string)
    ensures IsPiped(line) && IsFilterStep(line)
    ensures IsLine(line) <==> NoNewline(field)
  {
    SplicedLine("|> filter(fn:(r) => r._field == \"", field, "\")\n");
    "|> filter(fn:(r) => r._field == \"" + field + "\")\n"
  }

  /** The lines that `range` calls with these start bounds append, in order. */
  function RangeLines(ranges: seq<string>): (lines: seq<string>)
    ensures |lines| == |ranges|
    ensures forall i :: 0 <= i < |ranges| ==> lines[i] == RangeLine(ranges[i])
  {
    if ranges == [] then [] else [RangeLine(ranges[0])] + RangeLines(ranges[1..])
  }

  /** The pipeline after `_reset` followed by `range` calls with these start
      bounds: the seed line first, then one line per call. */
  function Pipeline(bucket: string, ranges: seq<string>): (pipeline: seq<string>)
    ensures |pipeline| == |ranges| + 1 && pipeline[0] == SourceLine(bucket)
    ensures forall i :: 0 < i < |pipeline| ==> pipeline[i] == RangeLine(ranges[i - 1])
  {
    [SourceLine(bucket)] + RangeLines(ranges)
  }

  /** The query text `aggregate` hands to the query API for such a pipeline. */
  function QueryText(bucket: string, ranges: seq<string>): (text: string)
    ensures SourceLine(bucket) <= text
    ensures ranges == [] ==> text == SourceLine(bucket)
    ensures ranges != [] ==> EndsWith(text, RangeLine(ranges[|ranges| - 1]))
  {
    var pipeline := Pipeline(bucket, ranges);
    assert ranges == [] ==> Concat(pipeline) == SourceLine(bucket) + Concat([]);
    Concat(pipeline)
  }

  /** A `range` step and a `filter` step differ in their fourth character. */
  lemma RangeStepNotFilterStep(s: string, t: string)
    requires IsRangeStep(s) && IsFilterStep(t)
    ensures s != t
  {
    assert s[3] == "|> range("[3] && t[3] == "|> filter("[3];
  }

  /** The `filters` list is dead: no line `measurement`, `tag` or `field`
      produces is ever an element of the pipeline that `aggregate` joins. */
  lemma FilterLinesNotInPipeline(bucket: string, ranges: seq<string>, line: string)
    requires IsFilterStep(line)
    ensures line !in Pipeline(bucket, ranges)
  {
    var pipeline := Pipeline(bucket, ranges);
    forall i | 0 <= i < |pipeline|
      ensures pipeline[i] != line
    {
      if i == 0 {
        assert IsPiped(line) && !IsPiped(pipeline[i]);
      } else {
        RangeStepNotFilterStep(pipeline[i], line);
      }
    }
  }

  /** Joining two runs of fragments is joining each and appending. */
  lemma {:induction false} ConcatAppend(a: seq<string>, b: seq<string>)
    ensures Concat(a + b) == Concat(a) + Concat(b)
  {
    if a != [] {
      calc {
        Concat(a + b);
        { assert (a + b)[1..] == a[1..] + b; }
        a[0] + Concat(a[1..] + b);
        { ConcatAppend(a[1..], b); }
        a[0] + Concat(a[1..]) + Concat(b);
      }
    } else {
      assert a + b == b;
    }
  }

  /** A `range` call adds its step at the end of the pipeline and nothing else. */
  lemma PipelineAppend(bucket: string, ranges: seq<string>, start: string)
    ensures Pipeline(bucket, ranges + [start]) == Pipeline(bucket, ranges) + [RangeLine(start)]
  {
  }

  /** A `range` call extends the query text by exactly its own line. */
  lemma QueryTextAppend(bucket: string, ranges: seq<string>, start: string)
    ensures QueryText(bucket, ranges + [start]) == QueryText(bucket, ranges) + RangeLine(start)
  {
    PipelineAppend(bucket, ranges, start);
    ConcatAppend(Pipeline(bucket, ranges), [RangeLine(start)]);
    assert Concat([RangeLine(start)]) == RangeLine(start) + Concat([]);
  }

  /** The number of newline characters in a text. */
  function NewlineCount(s: string): (n: nat)
    ensures n == 0 <==> NoNewline(s)
  {
    if s == [] then 0 else (if s[0] == '\n' then 1 else 0) + NewlineCount(s[1..])
  }

  lemma {:induction false} NewlineCountAppend(a: string, b: string)
    ensures NewlineCount(a + b) == NewlineCount(a) + NewlineCount(b)
  {
    if a == [] {
      assert a + b == b;
    } else {
      assert (a + b)[1..] == a[1..] + b;
      NewlineCountAppend(a[1..], b);
    }
  }

  lemma LineNewlineCount(s: string)
    requires IsLine(s)
    ensures NewlineCount(s) == 1
  {
    assert s == s[..|s| - 1] + ['\n'];
    NewlineCountAppend(s[..|s| - 1], ['\n']);
  }

  /** Joining whole lines gives a text with one newline per fragment. */
  lemma {:induction false} ConcatLines(parts: seq<string>)
    requires forall i :: 0 <= i < |parts| ==> IsLine(parts[i])
    ensures NewlineCount(Concat(parts)) == |parts|
  {
    if parts != [] {
      LineNewlineCount(parts[0]);
      ConcatLines(parts[1..]);
      NewlineCountAppend(parts[0], Concat(parts[1..]));
    }
  }

  /** When neither the bucket nor any start bound holds a newline, the query
      text has exactly one line per pipeline element: the `from` line and one
      `range` line per call since the last reset. */
  lemma QueryLineCount(bucket: string, ranges: seq<string>)
    requires NoNewline(bucket)
    requires forall i :: 0 <= i < |ranges| ==> NoNewline(ranges[i])
    ensures NewlineCount(QueryText(bucket, ranges)) == |ranges| + 1
  {
    var pipeline := Pipeline(bucket, ranges);
    forall i | 0 <= i < |pipeline|
      ensures IsLine(pipeline[i])
    {
      if i > 0 {
        assert pipeline[i] == RangeLine(ranges[i - 1]);
      }
    }
    ConcatLines(pipeline);
  }
}
