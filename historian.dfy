/** historian/app.py: the buckets it reads, the aggregated-readings path that
    issues one query per aggregated measurement, and its entry points over the
    shared query layer. */
module Historian {
  import opened Common
  import opened QueryLayer
  import Aggregation

  /** Defaults of INFLUXDB_RAW_BUCKET and INFLUXDB_AGGREGATED_BUCKET. */
  const RAW_BUCKET: string := "sensor_data"
  const AGGREGATED_BUCKET: string := "aggregated_data"

  const AGGREGATED_SUFFIX: string := "_aggregated"

  /** The measurements queried when no sensor type is given. */
  const DEFAULT_MEASUREMENTS: seq<string> := ["temperature_aggregated", "humidity_aggregated", "electricity_aggregated"]

  /** The default measurements are exactly the ones the aggregation jobs write,
      in the order the jobs are created. */
  lemma DefaultMeasurementsAreWritten()
    ensures AGGREGATED_SUFFIX == Aggregation.AGGREGATED_SUFFIX
    ensures |DEFAULT_MEASUREMENTS| == |Aggregation.DOMAINS|
    ensures forall i :: 0 <= i < |DEFAULT_MEASUREMENTS| ==> DEFAULT_MEASUREMENTS[i] == Aggregation.DOMAINS[i] + AGGREGATED_SUFFIX
  {
  }

  /** The measurements get_aggregated_readings queries, in order. */
  function Measurements(sensorType: Option<string>): seq<string> {
    if Given(sensorType) then [sensorType.value + AGGREGATED_SUFFIX] else DEFAULT_MEASUREMENTS
  }

  /** `measurement.replace("_aggregated", "")`. */
  function BaseType(measurement: string): string {
    ReplaceAll(measurement, AGGREGATED_SUFFIX, "")
  }

  lemma NoUnderscoreNoSuffix(t: string)
    requires forall i :: 0 <= i < |t| ==> t[i] != '_'
    ensures !Contains(t, AGGREGATED_SUFFIX)
  {
    forall k | 0 <= k <= |t| - |AGGREGATED_SUFFIX|
      ensures !OccursAt(t, AGGREGATED_SUFFIX, k)
    {
      assert t[k..k + |AGGREGATED_SUFFIX|][0] == t[k] != AGGREGATED_SUFFIX[0];
    }
  }

  /** Removing the suffix gives back the sensor type, provided the type does not
      itself contain the suffix: no occurrence can straddle the join, because
      the only '_' of the suffix is its first character. */
  lemma {:induction false} StripSuffix(t: string)
    requires !Contains(t, AGGREGATED_SUFFIX)
    ensures BaseType(t + AGGREGATED_SUFFIX) == t
    decreases |t|
  {
    var p := AGGREGATED_SUFFIX;
    var s := t + p;
    if t == [] {
      assert s == p;
      assert s[..|p|] == p && s[|p|..] == [];
    } else {
      assert s[..|p|] != p by {
        if |t| >= |p| {
          assert s[..|p|] == t[..|p|];
          assert !OccursAt(t, p, 0);
        } else {
          assert s[..|p|][|t|] == p[0] == '_';
          assert p[|t|] != '_';
        }
      }
      assert !Contains(t[1..], p) by {
        forall k | 0 <= k <= |t[1..]| - |p|
          ensures !OccursAt(t[1..], p, k)
        {
          assert t[k + 1..k + 1 + |p|] == t[1..][k..k + |p|];
          assert !OccursAt(t, p, k + 1);
        }
      }
      StripSuffix(t[1..]);
      assert s[1..] == t[1..] + p;
      assert BaseType(s) == [t[0]] + BaseType(t[1..] + p);
      assert t == [t[0]] + t[1..];
    }
  }

  /** Each output's sensor type is the queried measurement without the suffix:
      the given type itself, or the three domains in order by default. */
  lemma MeasurementBases(sensorType: Option<string>)
    ensures Given(sensorType) && !Contains(sensorType.value, AGGREGATED_SUFFIX) ==>
      Measurements(sensorType) == [sensorType.value + AGGREGATED_SUFFIX] && BaseType(sensorType.value + AGGREGATED_SUFFIX) == sensorType.value
    ensures !Given(sensorType) ==>
      |Measurements(sensorType)| == 3 && forall i :: 0 <= i < 3 ==> BaseType(Measurements(sensorType)[i]) == Aggregation.DOMAINS[i]
  {
    if Given(sensorType) && !Contains(sensorType.value, AGGREGATED_SUFFIX) {
      StripSuffix(sensorType.value);
    }
    if !Given(sensorType) {
      DefaultMeasurementsAreWritten();
      forall i | 0 <= i < 3
        ensures BaseType(Measurements(sensorType)[i]) == Aggregation.DOMAINS[i]
      {
        NoUnderscoreNoSuffix(Aggregation.DOMAINS[i]);
        StripSuffix(Aggregation.DOMAINS[i]);
      }
    }
  }

  // ---------------------------------------------------------------------------
  // The aggregated query text

  /** The first part of the text: bucket, range and the measurement filter. */
  function AggregatedHead(bucket: string, range: Range, measurement: string): string {
    "\n        from(bucket: \"" + bucket + "\")\n            |> range(start: " + range.start + ", stop: " + range.stop + ")\n            "
    + FilterLine(Filter(MEASUREMENT_COLUMN, measurement)) + "        "
  }

  const PIVOT_BY_TYPE: string :=
    "\n            |> pivot(rowKey:[\"_time\"], columnKey: [\"type\"], valueColumn: \"_value\")\n            |> group(columns: [\"sensorId\", \"location\"])\n            |> sort(columns: [\"_time\"], desc: true)\n        "

  function LimitLine(limit: int): string {
    "|> limit(n: " + IntToDecimal(limit) + ")\n"
  }

  /** The optional filters of the aggregated query, in the order they are appended. */
  function AggregatedFilters(req: Request): seq<Filter> {
    Optional(SENSOR_ID_COLUMN, req.sensorId) + Optional(LOCATION_COLUMN, req.location)
  }

  /** All filters of the aggregated query: the measurement first. */
  function AggregatedSelection(measurement: string, req: Request): seq<Filter> {
    [Filter(MEASUREMENT_COLUMN, measurement)] + AggregatedFilters(req)
  }

  function AggregatedQuery(bucket: string, range: Range, measurement: string, req: Request): string {
    AggregatedHead(bucket, range, measurement) + Lines(AggregatedFilters(req)) + PIVOT_BY_TYPE
    + (if req.limit > 0 then LimitLine(req.limit) else "")
  }

  /** What the aggregated query selects: the measurement always, the tags only
      when given. */
  lemma AggregatedSelects(measurement: string, req: Request, r: Record)
    ensures Admits(AggregatedSelection(measurement, req), r) <==>
      Matches(r, Filter(MEASUREMENT_COLUMN, measurement))
      && (Given(req.sensorId) ==> Matches(r, Filter(SENSOR_ID_COLUMN, req.sensorId.value)))
      && (Given(req.location) ==> Matches(r, Filter(LOCATION_COLUMN, req.location.value)))
  {
    var m := [Filter(MEASUREMENT_COLUMN, measurement)];
    var b := Optional(SENSOR_ID_COLUMN, req.sensorId);
    var c := Optional(LOCATION_COLUMN, req.location);
    assert AggregatedSelection(measurement, req) == m + (b + c);
    AdmitsConcat(m, b + c, r);
    AdmitsConcat(b, c, r);
    AdmitsOptional(SENSOR_ID_COLUMN, req.sensorId, r);
    AdmitsOptional(LOCATION_COLUMN, req.location, r);
    assert Admits(m, r) <==> Matches(r, m[0]);
  }

  /** The aggregated query ends with a limit clause exactly when `limit > 0`,
      and its digits read back as `limit`. */
  lemma AggregatedLimit(bucket: string, range: Range, measurement: string, req: Request)
    ensures EndsWith(AggregatedQuery(bucket, range, measurement, req), LimitLine(req.limit)) <==> req.limit > 0
    ensures ParseInt(IntToDecimal(req.limit)) == Some(req.limit)
  {
    IntDecimalRoundTrip(req.limit);
    var body := AggregatedHead(bucket, range, measurement) + Lines(AggregatedFilters(req)) + PIVOT_BY_TYPE;
    var line := LimitLine(req.limit);
    var q := AggregatedQuery(bucket, range, measurement, req);
    assert line[|line| - 1] == '\n';
    if req.limit > 0 {
      assert q == body + line;
      assert q[|q| - |line|..] == line;
    } else {
      assert q == body + "";
      assert q[|q| - 1] == PIVOT_BY_TYPE[|PIVOT_BY_TYPE| - 1] == ' ';
      if |line| <= |q| {
        assert q[|q| - |line|..][|line| - 1] == q[|q| - 1];
      }
    }
  }

  /** The `+=` steps of the aggregated query builder. */
  method BuildAggregatedQuery(bucket: string, range: Range, measurement: string, req: Request) returns (query: string)
    ensures query == AggregatedQuery(bucket, range, measurement, req)
  {
    var b := Optional(SENSOR_ID_COLUMN, req.sensorId);
    var c := Optional(LOCATION_COLUMN, req.location);
    var head := AggregatedHead(bucket, range, measurement);
    query := head;
    if Given(req.sensorId) {
      query := query + FilterLine(Filter(SENSOR_ID_COLUMN, req.sensorId.value));
    }
    assert query == head + Lines(b);
    if Given(req.location) {
      query := query + FilterLine(Filter(LOCATION_COLUMN, req.location.value));
    }
    assert query == head + Lines(b) + Lines(c);
    LinesConcat(b, c);
    Regroup3(head, Lines(b), Lines(c));
    query := query + PIVOT_BY_TYPE;
    if req.limit > 0 {
      query := query + LimitLine(req.limit);
    } else {
      assert query + "" == query;
    }
  }

  // ---------------------------------------------------------------------------
  // Shaping the aggregated records

  datatype AggregatedReading = AggregatedReading(
    sensorId: Value,
    sensorType: string,
    location: Value,
    mean: Value,
    min: Value,
    max: Value,
    count: Value,
    sum: Value,
    unit: string,
    timestamp: string)

  /** One AggregatedReading, with the defaults of the `get` calls. */
  function Aggregated(base: string, r: Record, iso: Instant -> string): AggregatedReading
    requires HasTime(r)
  {
    AggregatedReading(Get(r, "sensorId", Str("")), base, Get(r, "location", Str("")),
                      Get(r, "mean", Float(0.0)), Get(r, "min", Float(0.0)), Get(r, "max", Float(0.0)),
                      Get(r, "count", Float(0.0)), Get(r, "sum", Float(0.0)), UnitOf(base), iso(r["_time"].t))
  }

  /** Missing statistics default to 0.0 and missing tags to ""; the type and
      unit follow the measurement, not the record. */
  lemma AggregatedDefaults(base: string, r: Record, iso: Instant -> string)
    requires HasTime(r)
    ensures var x := Aggregated(base, r, iso);
      (x.mean == if "mean" in r then r["mean"] else Float(0.0))
      && (x.min == if "min" in r then r["min"] else Float(0.0))
      && (x.max == if "max" in r then r["max"] else Float(0.0))
      && (x.count == if "count" in r then r["count"] else Float(0.0))
      && (x.sum == if "sum" in r then r["sum"] else Float(0.0))
      && (x.sensorId == if "sensorId" in r then r["sensorId"] else Str(""))
      && (x.location == if "location" in r then r["location"] else Str(""))
      && x.sensorType == base && x.unit == UnitOf(base) && x.timestamp == iso(r["_time"].t)
  {
  }

  /** The readings of the first `n` records, which all carry a time, in order. */
  function Shaped(base: string, rs: seq<Record>, n: nat, iso: Instant -> string): (out: seq<AggregatedReading>)
    requires n <= |rs| && forall k :: 0 <= k < n ==> HasTime(rs[k])
    ensures |out| == n
    ensures forall k :: 0 <= k < n ==> out[k] == Aggregated(base, rs[k], iso)
  {
    if n == 0 then [] else Shaped(base, rs, n - 1, iso) + [Aggregated(base, rs[n - 1], iso)]
  }

  /** The readings one measurement contributes: those of the records before the
      first one without a time, where the loop raises and the handler moves on. */
  function MeasurementReadings(base: string, rs: seq<Record>, iso: Instant -> string): seq<AggregatedReading> {
    Shaped(base, rs, FirstUntimed(rs), iso)
  }

  lemma FirstUntimedConcat(a: seq<Record>, b: seq<Record>)
    ensures FirstUntimed(a + b) == if FirstUntimed(a) < |a| then FirstUntimed(a) else |a| + FirstUntimed(b)
  {
    var n := if FirstUntimed(a) < |a| then FirstUntimed(a) else |a| + FirstUntimed(b);
    assert forall k :: 0 <= k < n ==> HasTime((a + b)[k]) by {
      forall k | 0 <= k < n
        ensures HasTime((a + b)[k])
      {
        if k >= |a| {
          assert (a + b)[k] == b[k - |a|];
        }
      }
    }
    if n < |a + b| {
      if FirstUntimed(a) < |a| {
        assert (a + b)[n] == a[n];
      } else {
        assert (a + b)[n] == b[n - |a|];
      }
    }
    FirstUntimedAt(a + b, n);
  }

  /** Shaping a prefix of `a` does not look past it. */
  lemma {:induction false} ShapedPrefix(base: string, a: seq<Record>, b: seq<Record>, n: nat, iso: Instant -> string)
    requires n <= |a| && forall k :: 0 <= k < n ==> HasTime(a[k])
    ensures forall k :: 0 <= k < n ==> HasTime((a + b)[k])
    ensures Shaped(base, a + b, n, iso) == Shaped(base, a, n, iso)
  {
    assert forall k :: 0 <= k < n ==> (a + b)[k] == a[k];
    if n > 0 {
      ShapedPrefix(base, a, b, n - 1, iso);
    }
  }

  /** Shaping past the end of a fully timed `a` continues into `b`. */
  lemma {:induction false} ShapedConcat(base: string, a: seq<Record>, b: seq<Record>, m: nat, iso: Instant -> string)
    requires forall k :: 0 <= k < |a| ==> HasTime(a[k])
    requires m <= |b| && forall k :: 0 <= k < m ==> HasTime(b[k])
    ensures forall k :: 0 <= k < |a| + m ==> HasTime((a + b)[k])
    ensures Shaped(base, a + b, |a| + m, iso) == Shaped(base, a, |a|, iso) + Shaped(base, b, m, iso)
  {
    assert forall k :: |a| <= k < |a| + m ==> (a + b)[k] == b[k - |a|];
    if m == 0 {
      ShapedPrefix(base, a, b, |a|, iso);
    } else {
      ShapedConcat(base, a, b, m - 1, iso);
      assert (a + b)[|a| + m - 1] == b[m - 1];
      Assoc(Shaped(base, a, |a|, iso), Shaped(base, b, m - 1, iso), [Aggregated(base, b[m - 1], iso)]);
    }
  }

  lemma MeasurementReadingsConcat(base: string, a: seq<Record>, b: seq<Record>, iso: Instant -> string)
    requires FirstUntimed(a) == |a|
    ensures MeasurementReadings(base, a + b, iso) == MeasurementReadings(base, a, iso) + MeasurementReadings(base, b, iso)
  {
    FirstUntimedConcat(a, b);
    ShapedConcat(base, a, b, FirstUntimed(b), iso);
  }

  lemma MeasurementReadingsCut(base: string, a: seq<Record>, b: seq<Record>, iso: Instant -> string)
    requires FirstUntimed(a) < |a|
    ensures MeasurementReadings(base, a + b, iso) == MeasurementReadings(base, a, iso)
  {
    FirstUntimedConcat(a, b);
    ShapedPrefix(base, a, b, FirstUntimed(a), iso);
  }

  /** What one measurement's query and record loop contribute. */
  function MeasurementResult(db: Database, bucket: string, range: Range, req: Request, iso: Instant -> string, measurement: string): seq<AggregatedReading> {
    MeasurementAnswer(BaseType(measurement), db(AggregatedQuery(bucket, range, measurement, req)), iso)
  }

  /** What one measurement's `try` makes of its query's answer: a raised query
      adds nothing. */
  function MeasurementAnswer(base: string, answer: Answer, iso: Instant -> string): seq<AggregatedReading> {
    match answer
    case Raised => []
    case Tables(tables) => MeasurementReadings(base, Flatten(tables), iso)
  }

  /** MeasurementResult for each measurement of one call. */
  function Results(db: Database, bucket: string, range: Range, req: Request, iso: Instant -> string): string -> seq<AggregatedReading> {
    m => MeasurementResult(db, bucket, range, req, iso, m)
  }

  /** The readings of the measurements, in order, from what each contributes. */
  function Collect(result: string -> seq<AggregatedReading>, ms: seq<string>): seq<AggregatedReading> {
    if ms == [] then [] else Collect(result, ms[..|ms| - 1]) + result(ms[|ms| - 1])
  }

  /** What get_aggregated_readings returns: the window defaults to the last 24 hours. */
  function AggregatedReadings(db: Database, bucket: string, req: Request, clock: Clock, iso: Instant -> string): seq<AggregatedReading> {
    Collect(Results(db, bucket, Window(req, clock, DAY, iso), req, iso), Measurements(req.sensorType))
  }

  /** The aggregated path reads the same clock as the raw one but defaults its
      start 24 hours back instead of one: its window ends where the raw window
      ends, and a missing start reaches 23 hours further back. A given start is
      used as it is, by both. */
  lemma AggregatedWindowIsWider(req: Request, clock: Clock, iso: Instant -> string)
    ensures Window(req, clock, DAY, iso).stop == Window(req, clock, HOUR, iso).stop
    ensures Given(req.startTime) ==> Window(req, clock, DAY, iso).start == Window(req, clock, HOUR, iso).start == req.startTime.value
    ensures !Given(req.startTime) ==> Window(req, clock, DAY, iso) == Window(req, Clock(clock.atStart - 23 * HOUR, clock.atEnd), HOUR, iso)
  {
  }

  /** With both bounds given, the aggregated readings do not depend on what the
      clock reads. */
  lemma AggregatedGivenBoundsIgnoreClock(db: Database, bucket: string, req: Request, c1: Clock, c2: Clock, iso: Instant -> string)
    requires Given(req.startTime) && Given(req.endTime)
    ensures AggregatedReadings(db, bucket, req, c1, iso) == AggregatedReadings(db, bucket, req, c2, iso)
  {
  }

  lemma Assoc<T>(a: seq<T>, b: seq<T>, c: seq<T>)
    ensures (a + b) + c == a + (b + c)
  {
  }

  lemma {:induction false} CollectConcat(result: string -> seq<AggregatedReading>, a: seq<string>, b: seq<string>)
    ensures Collect(result, a + b) == Collect(result, a) + Collect(result, b)
    decreases |b|
  {
    if b == [] {
      assert a + b == a;
    } else {
      var front := b[..|b| - 1];
      CollectConcat(result, a, front);
      assert (a + b)[..|a + b| - 1] == a + front;
      assert (a + b)[|a + b| - 1] == b[|b| - 1];
      Assoc(Collect(result, a), Collect(result, front), result(b[|b| - 1]));
    }
  }

  /** A measurement that contributes nothing leaves the others in place. */
  lemma FailureIsolated(result: string -> seq<AggregatedReading>, ms: seq<string>, k: nat)
    requires k < |ms| && result(ms[k]) == []
    ensures Collect(result, ms) == Collect(result, ms[..k]) + Collect(result, ms[k + 1..])
  {
    var before, failed, after := ms[..k], ms[k], ms[k + 1..];
    assert Collect(result, before + [failed]) == Collect(result, before) by {
      CollectConcat(result, before, [failed]);
      assert Collect(result, [failed]) == [] by {
        assert [failed][..0] == [];
      }
      assert Collect(result, before) + [] == Collect(result, before);
    }
    SplitAt(ms, k);
    CollectConcat(result, before + [failed], after);
  }

  lemma SplitAt<T>(s: seq<T>, k: nat)
    requires k < |s|
    ensures s == (s[..k] + [s[k]]) + s[k + 1..]
  {
  }

  /** A failure on one aggregated measurement is caught: it contributes
      nothing, and the measurements after it are still queried. */
  lemma AggregatedFailureIsolated(db: Database, bucket: string, req: Request, clock: Clock, iso: Instant -> string, k: nat)
    requires var ms := Measurements(req.sensorType);
      k < |ms| && db(AggregatedQuery(bucket, Window(req, clock, DAY, iso), ms[k], req)).Raised?
    ensures var ms := Measurements(req.sensorType);
      var result := Results(db, bucket, Window(req, clock, DAY, iso), req, iso);
      AggregatedReadings(db, bucket, req, clock, iso) == Collect(result, ms[..k]) + Collect(result, ms[k + 1..])
  {
    var ms := Measurements(req.sensorType);
    var result := Results(db, bucket, Window(req, clock, DAY, iso), req, iso);
    assert result(ms[k]) == [];
    FailureIsolated(result, ms, k);
  }

  /** Every reading carries the base type of a queried measurement. */
  lemma {:induction false} CollectTypes(result: string -> seq<AggregatedReading>, ms: seq<string>)
    requires forall m, x :: x in result(m) ==> x.sensorType == BaseType(m) && x.unit == UnitOf(x.sensorType)
    ensures forall x :: x in Collect(result, ms) ==>
      x.unit == UnitOf(x.sensorType) && exists i :: 0 <= i < |ms| && x.sensorType == BaseType(ms[i])
  {
    if ms != [] {
      var front := ms[..|ms| - 1];
      CollectTypes(result, front);
      forall x | x in Collect(result, ms)
        ensures x.unit == UnitOf(x.sensorType) && exists i :: 0 <= i < |ms| && x.sensorType == BaseType(ms[i])
      {
        if x in Collect(result, front) {
          var i :| 0 <= i < |front| && x.sensorType == BaseType(front[i]);
          assert ms[i] == front[i];
        } else {
          assert x in result(ms[|ms| - 1]);
        }
      }
    }
  }

  lemma ResultTypes(db: Database, bucket: string, range: Range, req: Request, iso: Instant -> string)
    ensures forall m, x :: x in Results(db, bucket, range, req, iso)(m) ==> x.sensorType == BaseType(m) && x.unit == UnitOf(x.sensorType)
  {
    forall m, x | x in Results(db, bucket, range, req, iso)(m)
      ensures x.sensorType == BaseType(m) && x.unit == UnitOf(x.sensorType)
    {
      var out := MeasurementResult(db, bucket, range, req, iso, m);
      var k :| 0 <= k < |out| && out[k] == x;
    }
  }

  /** The types of get_aggregated_readings: the given type, or one of the
      three domains when none is given. */
  lemma AggregatedReadingTypes(db: Database, bucket: string, req: Request, clock: Clock, iso: Instant -> string)
    ensures var out := AggregatedReadings(db, bucket, req, clock, iso);
      (Given(req.sensorType) && !Contains(req.sensorType.value, AGGREGATED_SUFFIX) ==>
        forall x :: x in out ==> x.sensorType == req.sensorType.value && x.unit == UnitOf(req.sensorType.value))
      && (!Given(req.sensorType) ==>
        forall x :: x in out ==> x.sensorType in Aggregation.DOMAINS && x.unit == UnitOf(x.sensorType))
  {
    var range := Window(req, clock, DAY, iso);
    ResultTypes(db, bucket, range, req, iso);
    CollectTypes(Results(db, bucket, range, req, iso), Measurements(req.sensorType));
    MeasurementBases(req.sensorType);
  }

  // ---------------------------------------------------------------------------
  // The loops of get_aggregated_readings

  /** The inner record loop for one table: `raised` reports that a record
      without a time ended it. */
  method ShapeTable(out0: seq<AggregatedReading>, base: string, records: seq<Record>, iso: Instant -> string)
    returns (out: seq<AggregatedReading>, raised: bool)
    ensures out == out0 + MeasurementReadings(base, records, iso)
    ensures raised <==> FirstUntimed(records) < |records|
  {
    out := out0;
    var j := 0;
    while j < |records|
      invariant 0 <= j <= |records|
      invariant forall k :: 0 <= k < j ==> HasTime(records[k])
      invariant out == out0 + Shaped(base, records, j, iso)
    {
      if !HasTime(records[j]) {
        FirstUntimedAt(records, j);
        return out, true;
      }
      Assoc(out0, Shaped(base, records, j, iso), [Aggregated(base, records[j], iso)]);
      out := out + [Aggregated(base, records[j], iso)];
      j := j + 1;
    }
    FirstUntimedAt(records, j);
    raised := false;
  }

  /** The table loop for one measurement, inside its `try`. */
  method AppendMeasurement(readings: seq<AggregatedReading>, base: string, tables: seq<Table>, iso: Instant -> string)
    returns (out: seq<AggregatedReading>)
    ensures out == readings + MeasurementReadings(base, Flatten(tables), iso)
  {
    out := readings;
    var i := 0;
    while i < |tables|
      invariant 0 <= i <= |tables|
      invariant FirstUntimed(Flatten(tables[..i])) == |Flatten(tables[..i])|
      invariant out == readings + MeasurementReadings(base, Flatten(tables[..i]), iso)
    {
      ghost var done := Flatten(tables[..i]);
      var records := tables[i].records;
      ghost var before := out;
      var raised;
      out, raised := ShapeTable(out, base, records, iso);
      assert Flatten(tables[..i + 1]) == done + records by {
        assert tables[..i + 1][..i] == tables[..i];
      }
      FirstUntimedConcat(done, records);
      MeasurementReadingsConcat(base, done, records, iso);
      Assoc(readings, MeasurementReadings(base, done, iso), MeasurementReadings(base, records, iso));
      if raised {
        FlattenSplit(tables, i + 1);
        MeasurementReadingsCut(base, done + records, Flatten(tables[i + 1..]), iso);
        return;
      }
      i := i + 1;
    }
    assert tables[..i] == tables;
  }

  /** get_aggregated_readings over a bucket: one query per measurement, each in
      its own `try`. */
  method QueryAggregated(db: Database, bucket: string, req: Request, clock: Clock, iso: Instant -> string)
    returns (readings: seq<AggregatedReading>)
    ensures readings == AggregatedReadings(db, bucket, req, clock, iso)
  {
    var range := Window(req, clock, DAY, iso);
    var measurements := Measurements(req.sensorType);
    ghost var result := Results(db, bucket, range, req, iso);
    readings := [];
    var i := 0;
    while i < |measurements|
      invariant 0 <= i <= |measurements|
      invariant readings == Collect(result, measurements[..i])
    {
      readings := QueryMeasurement(db, bucket, range, req, iso, readings, measurements[i]);
      assert measurements[..i + 1][..i] == measurements[..i];
      i := i + 1;
    }
    assert measurements[..i] == measurements;
  }

  /** One pass of the measurement loop: build the text, query, and shape the
      records; a raised query adds nothing. */
  method QueryMeasurement(db: Database, bucket: string, range: Range, req: Request, iso: Instant -> string,
                          readings: seq<AggregatedReading>, measurement: string)
    returns (out: seq<AggregatedReading>)
    ensures out == readings + MeasurementResult(db, bucket, range, req, iso, measurement)
  {
    var base := ReplaceAll(measurement, AGGREGATED_SUFFIX, "");
    var query := BuildAggregatedQuery(bucket, range, measurement, req);
    var answer := db(query);
    out := ShapeMeasurement(readings, base, answer, iso);
  }

  /** One measurement's `try`: the `except` branch adds nothing. */
  method ShapeMeasurement(readings: seq<AggregatedReading>, base: string, answer: Answer, iso: Instant -> string)
    returns (out: seq<AggregatedReading>)
    ensures out == readings + MeasurementAnswer(base, answer, iso)
  {
    if answer.Raised? {
      assert readings + [] == readings;
      return readings;
    }
    out := AppendMeasurement(readings, base, answer.tables, iso);
  }

  // ---------------------------------------------------------------------------
  // Entry points with the default buckets

  method GetAllLocations(db: Database) returns (infos: seq<LocationInfo>)
    ensures infos == Locations(db, RAW_BUCKET)
  {
    infos := QueryLocations(db, RAW_BUCKET);
  }

  method GetSensorReadings(db: Database, req: Request, clock: Clock, iso: Instant -> string) returns (readings: seq<SensorReading>)
    ensures readings == SensorReadings(db, RAW_BUCKET, req, clock, iso)
  {
    readings := QueryReadings(db, RAW_BUCKET, req, clock, iso);
  }

  method GetAggregatedReadings(db: Database, req: Request, clock: Clock, iso: Instant -> string) returns (readings: seq<AggregatedReading>)
    ensures readings == AggregatedReadings(db, AGGREGATED_BUCKET, req, clock, iso)
  {
    readings := QueryAggregated(db, AGGREGATED_BUCKET, req, clock, iso);
  }
}
