/** The per-domain aggregation job of the processor (processor/temperature_aggregator.go and its siblings,
    processor/base_aggregator.go). The temperature, humidity and electricity
    aggregators are one class parameterised by the domain name: a job builds one
    Flux text that asks InfluxDB for the windowed mean, min and max, writes one
    derived point per result row back to the bucket it read, and repeats once
    per timer tick until its context is cancelled. InfluxDB's evaluation of the
    Flux text is an input: the query answer is a function of the text. */
module Aggregation {
  import opened Common

  /** The domains CreateAggregators instantiates, in order. */
  const DOMAINS: seq<string> := ["temperature", "humidity", "electricity"]

  /** The statistics of one cycle, in the order of the Flux text. */
  const STATISTICS: seq<string> := ["mean", "min", "max"]

  const AGGREGATED_SUFFIX: string := "_aggregated"

  // ----- the Flux text -----

  /** A fragment of a Go format string: literal text or one %s verb. */
  datatype Piece = Lit(text: string) | Verb

  function VerbCount(t: seq<Piece>): nat
    decreases |t|
  {
    if t == [] then 0 else (if t[0].Verb? then 1 else 0) + VerbCount(t[1..])
  }

  /** fmt.Sprintf over %s verbs: each verb takes the next argument, and a verb
      left without one prints "%!s(MISSING)". */
  function Sprintf(t: seq<Piece>, args: seq<string>): string
    decreases |t|
  {
    if t == [] then ""
    else
      match t[0]
      case Lit(s) => s + Sprintf(t[1..], args)
      case Verb =>
        if args == [] then "%!s(MISSING)" + Sprintf(t[1..], args)
        else args[0] + Sprintf(t[1..], args[1..])
  }

  lemma {:induction false} VerbCountConcat(t1: seq<Piece>, t2: seq<Piece>)
    ensures VerbCount(t1 + t2) == VerbCount(t1) + VerbCount(t2)
    decreases |t1|
  {
    if t1 != [] {
      assert (t1 + t2)[0] == t1[0];
      assert (t1 + t2)[1..] == t1[1..] + t2;
      VerbCountConcat(t1[1..], t2);
    } else {
      assert t1 + t2 == t2;
    }
  }

  /** Formatting a concatenated template consumes the arguments in order. */
  lemma {:induction false} SprintfConcat(t1: seq<Piece>, t2: seq<Piece>, a1: seq<string>, a2: seq<string>)
    requires VerbCount(t1) == |a1| && VerbCount(t2) == |a2|
    ensures VerbCount(t1 + t2) == |a1 + a2|
    ensures Sprintf(t1 + t2, a1 + a2) == Sprintf(t1, a1) + Sprintf(t2, a2)
    decreases |t1|
  {
    VerbCountConcat(t1, t2);
    if t1 == [] {
      assert t1 + t2 == t2;
      assert a1 + a2 == a2;
    } else {
      assert (t1 + t2)[0] == t1[0];
      assert (t1 + t2)[1..] == t1[1..] + t2;
      match t1[0]
      case Lit(s) =>
        SprintfConcat(t1[1..], t2, a1, a2);
      case Verb =>
        assert (a1 + a2)[0] == a1[0];
        assert (a1 + a2)[1..] == a1[1..] + a2;
        SprintfConcat(t1[1..], t2, a1[1..], a2);
    }
  }

  /** A literal followed by a verb consumes one argument after the literal. */
  lemma LitVerbFormat(l: string, t: seq<Piece>, x: string, a: seq<string>)
    requires VerbCount(t) == |a|
    ensures VerbCount([Lit(l), Verb] + t) == |a| + 1
    ensures Sprintf([Lit(l), Verb] + t, [x] + a) == l + (x + Sprintf(t, a))
  {
    var s := [Lit(l), Verb] + t;
    assert s[1..] == [Verb] + t && s[1..][1..] == t;
    assert ([x] + a)[1..] == a;
  }

  /** A template of five literals separated by four verbs. */
  function FourVerbs(l0: string, l1: string, l2: string, l3: string, l4: string): seq<Piece> {
    [Lit(l0), Verb] + ([Lit(l1), Verb] + ([Lit(l2), Verb] + ([Lit(l3), Verb] + [Lit(l4)])))
  }

  /** Formatting such a template interleaves the literals and the arguments. */
  lemma FourVerbsFormat(l0: string, l1: string, l2: string, l3: string, l4: string, args: seq<string>)
    requires |args| == 4
    ensures VerbCount(FourVerbs(l0, l1, l2, l3, l4)) == 4
    ensures Sprintf(FourVerbs(l0, l1, l2, l3, l4), args)
            == l0 + (args[0] + (l1 + (args[1] + (l2 + (args[2] + (l3 + (args[3] + l4)))))))
  {
    var t4 := [Lit(l4)];
    var t3 := [Lit(l3), Verb] + t4;
    var t2 := [Lit(l2), Verb] + t3;
    var t1 := [Lit(l1), Verb] + t2;
    var s3 := l3 + (args[3] + l4);
    var s2 := l2 + (args[2] + s3);
    var s1 := l1 + (args[1] + s2);
    assert VerbCount(t3) == 1 && Sprintf(t3, args[3..]) == s3 by {
      assert VerbCount(t4) == 0 && Sprintf(t4, args[4..]) == l4 by { assert t4[1..] == []; assert l4 + "" == l4; }
      LitVerbFormat(l3, t4, args[3], args[4..]);
      assert [args[3]] + args[4..] == args[3..];
    }
    assert VerbCount(t2) == 2 && Sprintf(t2, args[2..]) == s2 by {
      LitVerbFormat(l2, t3, args[2], args[3..]);
      assert [args[2]] + args[3..] == args[2..];
    }
    assert VerbCount(t1) == 3 && Sprintf(t1, args[1..]) == s1 by {
      LitVerbFormat(l1, t2, args[1], args[2..]);
      assert [args[1]] + args[2..] == args[1..];
    }
    assert FourVerbs(l0, l1, l2, l3, l4) == [Lit(l0), Verb] + t1;
    LitVerbFormat(l0, t1, args[0], args[1..]);
    assert [args[0]] + args[1..] == args;
  }

  /** Three four-verb templates, each after an empty line, take their
      arguments in three consecutive groups of four. */
  lemma ThreeBlocksFormat(m: seq<Piece>, n: seq<Piece>, x: seq<Piece>, a: seq<string>)
    requires VerbCount(m) == 4 && VerbCount(n) == 4 && VerbCount(x) == 4 && |a| == 4
    ensures VerbCount([Lit("\n")] + m + [Lit("\n")] + n + [Lit("\n")] + x) == 12
    ensures Sprintf([Lit("\n")] + m + [Lit("\n")] + n + [Lit("\n")] + x, a + a + a)
            == "\n" + Sprintf(m, a) + "\n" + Sprintf(n, a) + "\n" + Sprintf(x, a)
  {
    var nl := [Lit("\n")];
    var e: seq<string> := [];
    assert VerbCount(nl) == 0 && Sprintf(nl, e) == "\n" by { assert nl[1..] == []; }
    assert a + a + a == e + a + e + a + e + a;
    SprintfConcat(nl, m, e, a);
    SprintfConcat(nl + m, nl, e + a, e);
    SprintfConcat(nl + m + nl, n, e + a + e, a);
    SprintfConcat(nl + m + nl + n, nl, e + a + e + a, e);
    SprintfConcat(nl + m + nl + n + nl, x, e + a + e + a + e, a);
  }

  /** The template of one sub-query with aggregate function `fn`; its four
      verbs take the bucket, the interval, the measurement and the interval. */
  function SubQueryTemplate(fn: string): seq<Piece> {
    FourVerbs("from(bucket: \"",
              "\")\n  |> range(start: -",
              ")\n  |> filter(fn: (r) => r._measurement == \"",
              "\")\n  |> group(columns: [\"sensorId\", \"location\"])\n  |> aggregateWindow(every: ",
              ", fn: " + fn + ", createEmpty: false)\n  |> yield(name: \"" + fn + "\")\n")
  }

  /** RunAggregation's format string: an empty first line, then the three
      sub-queries for mean, min and max separated by empty lines. */
  function FluxTemplate(): seq<Piece> {
    [Lit("\n")] + SubQueryTemplate("mean") + [Lit("\n")] + SubQueryTemplate("min") + [Lit("\n")] + SubQueryTemplate("max")
  }

  /** The twelve arguments RunAggregation passes to Sprintf, in its order. */
  function FluxArgs(bucket: string, interval: string, sensorType: string): seq<string> {
    [bucket, interval, sensorType, interval,
     bucket, interval, sensorType, interval,
     bucket, interval, sensorType, interval]
  }

  /** One sub-query: read the trailing `interval` of `measurement` from
      `bucket`, group by sensor and location, aggregate with `fn` over windows of
      `interval`, and yield the result under the name `fn`. */
  function SubQuery(bucket: string, interval: string, measurement: string, fn: string): string {
    "from(bucket: \"" + (bucket
    + ("\")\n  |> range(start: -" + (interval
    + (")\n  |> filter(fn: (r) => r._measurement == \"" + (measurement
    + ("\")\n  |> group(columns: [\"sensorId\", \"location\"])\n  |> aggregateWindow(every: " + (interval
    + (", fn: " + fn + ", createEmpty: false)\n  |> yield(name: \"" + fn + "\")\n"))))))))
  }

  /** The Flux text of one aggregation cycle: three sub-queries over the same
      bucket, measurement and interval, for mean, min and max in that order,
      each after an empty line. */
  function FluxQuery(bucket: string, interval: string, sensorType: string): string {
    "\n" + SubQuery(bucket, interval, sensorType, STATISTICS[0])
    + "\n" + SubQuery(bucket, interval, sensorType, STATISTICS[1])
    + "\n" + SubQuery(bucket, interval, sensorType, STATISTICS[2])
  }

  /** The sub-query template, given its four arguments, reads as SubQuery. */
  lemma SubQueryTemplateFormats(bucket: string, interval: string, measurement: string, fn: string)
    ensures VerbCount(SubQueryTemplate(fn)) == 4
    ensures Sprintf(SubQueryTemplate(fn), [bucket, interval, measurement, interval]) == SubQuery(bucket, interval, measurement, fn)
  {
    FourVerbsFormat("from(bucket: \"",
                    "\")\n  |> range(start: -",
                    ")\n  |> filter(fn: (r) => r._measurement == \"",
                    "\")\n  |> group(columns: [\"sensorId\", \"location\"])\n  |> aggregateWindow(every: ",
                    ", fn: " + fn + ", createEmpty: false)\n  |> yield(name: \"" + fn + "\")\n",
                    [bucket, interval, measurement, interval]);
  }

  /** RunAggregation's format string, applied to its twelve arguments in their
      order, is the three-statistic Flux text: every verb of every sub-query
      receives the bucket, the interval or the measurement it is meant for. */
  lemma FluxTemplateFormats(bucket: string, interval: string, sensorType: string)
    ensures VerbCount(FluxTemplate()) == |FluxArgs(bucket, interval, sensorType)|
    ensures Sprintf(FluxTemplate(), FluxArgs(bucket, interval, sensorType)) == FluxQuery(bucket, interval, sensorType)
  {
    var four := [bucket, interval, sensorType, interval];
    assert FluxArgs(bucket, interval, sensorType) == four + four + four;
    SubQueryTemplateFormats(bucket, interval, sensorType, "mean");
    SubQueryTemplateFormats(bucket, interval, sensorType, "min");
    SubQueryTemplateFormats(bucket, interval, sensorType, "max");
    ThreeBlocksFormat(SubQueryTemplate("mean"), SubQueryTemplate("min"), SubQueryTemplate("max"), four);
  }

  // ----- result rows and derived points -----

  /** One record of the query result: its result (yield) name, its value as
      InfluxDB returned it, its other columns, and its time. */
  datatype Row = Row(result: string, value: Value, columns: map<string, Value>, time: Instant)

  /** The row carries string sensorId and location columns; the source's type
      assertions panic on any other row. */
  predicate WellTagged(r: Row) {
    && "sensorId" in r.columns && r.columns["sensorId"].Str?
    && "location" in r.columns && r.columns["location"].Str?
  }

  /** The answer to a query: an error, or the rows the iterator yields. */
  datatype QueryResponse = QueryFailed | Stream(rows: seq<Row>)

  predicate WellTaggedResponse(q: QueryResponse) {
    q.Stream? ==> forall i :: 0 <= i < |q.rows| ==> WellTagged(q.rows[i])
  }

  /** The database as one cycle sees it: the answer to a Flux text, and whether
      the blocking write of the i-th row's point succeeds. */
  datatype Store = Store(answer: string -> QueryResponse, accepts: nat -> bool)

  /** A point written through the write API bound to `bucket`. */
  datatype Write = Write(bucket: string, point: Point)

  /** The point RunAggregation builds from one row. */
  function DerivedPoint(sensorType: string, r: Row): Point
    requires WellTagged(r)
  {
    Point(sensorType + AGGREGATED_SUFFIX,
          map["sensorId" := r.columns["sensorId"].s, "location" := r.columns["location"].s, "type" := r.result],
          map["value" := r.value],
          r.time)
  }

  /** The writes that succeed when the rows are written one by one, in order. */
  function Accepted(bucket: string, sensorType: string, rows: seq<Row>, accepts: nat -> bool): seq<Write>
    requires forall i :: 0 <= i < |rows| ==> WellTagged(rows[i])
    decreases |rows|
  {
    if rows == [] then []
    else
      var n := |rows| - 1;
      Accepted(bucket, sensorType, rows[..n], accepts)
      + (if accepts(n) then [Write(bucket, DerivedPoint(sensorType, rows[n]))] else [])
  }

  /** What one cycle writes, given the answer to its query. */
  function CycleWrites(bucket: string, sensorType: string, q: QueryResponse, accepts: nat -> bool): seq<Write>
    requires WellTaggedResponse(q)
  {
    match q
    case QueryFailed => []
    case Stream(rows) => Accepted(bucket, sensorType, rows, accepts)
  }

  /** The derived point is named after the domain, tagged with the sensor, the
      location and the statistic, and carries the row's value and time unchanged. */
  lemma DerivedPointCopiesRow(sensorType: string, r: Row)
    requires WellTagged(r)
    ensures DerivedPoint(sensorType, r).measurement == sensorType + "_aggregated"
    ensures DerivedPoint(sensorType, r).tags.Keys == {"sensorId", "location", "type"}
    ensures DerivedPoint(sensorType, r).tags["type"] == r.result
    ensures Str(DerivedPoint(sensorType, r).tags["sensorId"]) == r.columns["sensorId"]
    ensures Str(DerivedPoint(sensorType, r).tags["location"]) == r.columns["location"]
    ensures DerivedPoint(sensorType, r).fields == map["value" := r.value]
    ensures DerivedPoint(sensorType, r).time == r.time
  {
  }

  /** A failed query ends the cycle with nothing written, for every statistic. */
  lemma QueryFailureWritesNothing(bucket: string, sensorType: string, accepts: nat -> bool)
    ensures CycleWrites(bucket, sensorType, QueryFailed, accepts) == []
  {
  }

  /** A failed write does not stop the loop: every row whose write succeeds is
      written, whatever happened to the rows before it. */
  lemma {:induction false} EveryAcceptedRowWritten(bucket: string, sensorType: string, rows: seq<Row>, accepts: nat -> bool, i: nat)
    requires forall j :: 0 <= j < |rows| ==> WellTagged(rows[j])
    requires i < |rows| && accepts(i)
    ensures Write(bucket, DerivedPoint(sensorType, rows[i])) in Accepted(bucket, sensorType, rows, accepts)
    decreases |rows|
  {
    var n := |rows| - 1;
    if i < n {
      EveryAcceptedRowWritten(bucket, sensorType, rows[..n], accepts, i);
    }
  }

  /** Everything a cycle writes goes to the bucket it read, as a derived point
      of one of its rows. */
  lemma {:induction false} OnlyDerivedPointsWritten(bucket: string, sensorType: string, rows: seq<Row>, accepts: nat -> bool)
    requires forall j :: 0 <= j < |rows| ==> WellTagged(rows[j])
    ensures |Accepted(bucket, sensorType, rows, accepts)| <= |rows|
    ensures forall w :: w in Accepted(bucket, sensorType, rows, accepts) ==>
              w.bucket == bucket && exists j :: 0 <= j < |rows| && accepts(j) && w.point == DerivedPoint(sensorType, rows[j])
    decreases |rows|
  {
    if rows != [] {
      var n := |rows| - 1;
      OnlyDerivedPointsWritten(bucket, sensorType, rows[..n], accepts);
      forall w | w in Accepted(bucket, sensorType, rows, accepts)
        ensures w.bucket == bucket && exists j :: 0 <= j < |rows| && accepts(j) && w.point == DerivedPoint(sensorType, rows[j])
      {
        if w in Accepted(bucket, sensorType, rows[..n], accepts) {
          var j :| 0 <= j < n && accepts(j) && w.point == DerivedPoint(sensorType, rows[..n][j]);
          assert rows[..n][j] == rows[j];
        } else {
          assert accepts(n) && w.point == DerivedPoint(sensorType, rows[n]);
        }
      }
    }
  }

  /** When every write succeeds, each row becomes exactly one point, in the
      iterator's order. */
  lemma {:induction false} OnePointPerRow(bucket: string, sensorType: string, rows: seq<Row>, accepts: nat -> bool)
    requires forall j :: 0 <= j < |rows| ==> WellTagged(rows[j])
    requires forall j :: 0 <= j < |rows| ==> accepts(j)
    ensures |Accepted(bucket, sensorType, rows, accepts)| == |rows|
    ensures forall j :: 0 <= j < |rows| ==> Accepted(bucket, sensorType, rows, accepts)[j] == Write(bucket, DerivedPoint(sensorType, rows[j]))
    decreases |rows|
  {
    if rows != [] {
      var n := |rows| - 1;
      OnePointPerRow(bucket, sensorType, rows[..n], accepts);
      forall j | 0 <= j < n
        ensures Accepted(bucket, sensorType, rows, accepts)[j] == Write(bucket, DerivedPoint(sensorType, rows[j]))
      {
        assert rows[..n][j] == rows[j];
      }
    }
  }

  // ----- the job's lifecycle -----

  /** What happens while Run waits in its select statement: a timer tick, or a
      call of the job's cancel function, which closes its context's Done channel. */
  datatype Signal = Tick | CancelCall

  /** How Run ends: the interval does not parse; time.NewTicker panics on a
      non-positive interval; cancellation (Run returns nil); or still waiting
      when the observed signals run out. */
  datatype RunOutcome = InvalidInterval | TickerPanic | Stopped | Waiting

  /** The ticks Run serves before the job is cancelled. */
  function TicksBeforeCancel(signals: seq<Signal>): nat
    decreases |signals|
  {
    if signals == [] || signals[0] == CancelCall then 0 else 1 + TicksBeforeCancel(signals[1..])
  }

  /** TicksBeforeCancel is the position of the first cancel call, or the length
      when there is none. */
  lemma {:induction false} TicksBeforeFirstCancel(signals: seq<Signal>, i: nat)
    requires i <= |signals|
    requires forall j :: 0 <= j < i ==> signals[j].Tick?
    requires i == |signals| || signals[i].CancelCall?
    ensures TicksBeforeCancel(signals) == i
    ensures CancelCall in signals <==> i < |signals|
    decreases i
  {
    if i > 0 {
      TicksBeforeFirstCancel(signals[1..], i - 1);
    }
  }

  /** Every cycle's answer to `flux` has well-tagged rows. */
  ghost predicate WellTaggedStores(stores: nat -> Store, flux: string) {
    forall k: nat :: WellTaggedResponse(stores(k).answer(flux))
  }

  /** Everything written by the first `n` cycles. */
  function CyclesWrites(bucket: string, sensorType: string, flux: string, stores: nat -> Store, n: nat): seq<Write>
    requires WellTaggedStores(stores, flux)
    decreases n
  {
    if n == 0 then []
    else CyclesWrites(bucket, sensorType, flux, stores, n - 1)
         + CycleWrites(bucket, sensorType, stores(n - 1).answer(flux), stores(n - 1).accepts)
  }

  /** The processor's configuration as the aggregators read it. */
  datatype Config = Config(influxBucket: string, aggregationInterval: string)

  class Aggregator {
    const sensorType: string
    const influxBucket: string
    const aggregationInterval: string
    /** The Flux text of RunAggregation. It depends only on the fields above,
        which never change, so the model formats it once, when the job is built. */
    const flux: string

    /** Whether the job's cancel function has been called. */
    var cancelled: bool
    /** Points the blocking write API has accepted, in order. */
    var written: seq<Write>

    /** New<Domain>Aggregator: the job's own context and cancel function. */
    constructor (sensorType: string, config: Config)
      ensures this.sensorType == sensorType
      ensures influxBucket == config.influxBucket && aggregationInterval == config.aggregationInterval
      ensures flux == Sprintf(FluxTemplate(), FluxArgs(config.influxBucket, config.aggregationInterval, sensorType))
      ensures !cancelled && written == []
    {
      this.sensorType := sensorType;
      this.influxBucket := config.influxBucket;
      this.aggregationInterval := config.aggregationInterval;
      this.flux := Sprintf(FluxTemplate(), FluxArgs(config.influxBucket, config.aggregationInterval, sensorType));
      this.cancelled := false;
      this.written := [];
    }

    /** GetCancelFunc()(): cancels this job's context only. */
    method Cancel()
      modifies this`cancelled
      ensures cancelled
    {
      cancelled := true;
    }

    /** One cycle: query once, then write one point per row, logging and
        skipping any row whose write fails. */
    method RunAggregation(store: Store)
      requires WellTaggedResponse(store.answer(flux))
      modifies this`written
      ensures written == old(written) + CycleWrites(influxBucket, sensorType, store.answer(flux), store.accepts)
    {
      var result := store.answer(flux);
      if result.QueryFailed? {
        return;
      }
      WriteRows(result.rows, store.accepts);
    }

    /** The record loop of RunAggregation: the i-th row's derived point is
        written when the write API accepts it. */
    method WriteRows(rows: seq<Row>, accepts: nat -> bool)
      requires forall i :: 0 <= i < |rows| ==> WellTagged(rows[i])
      modifies this`written
      ensures written == old(written) + Accepted(influxBucket, sensorType, rows, accepts)
    {
      var i := 0;
      while i < |rows|
        invariant 0 <= i <= |rows|
        invariant written == old(written) + Accepted(influxBucket, sensorType, rows[..i], accepts)
      {
        var record := rows[i];
        var point := DerivedPoint(sensorType, record);
        assert rows[..i + 1][..i] == rows[..i];
        if accepts(i) {
          written := written + [Write(influxBucket, point)];
        }
        i := i + 1;
      }
      assert rows[..|rows|] == rows;
    }

    /** Run: parse the interval or fail, start the ticker, run one cycle at
        once, then one per tick until the job's context is cancelled. Cycle k
        sees the database as stores(k). */
    method Run(parseDuration: string -> Option<int>, signals: seq<Signal>, stores: nat -> Store) returns (outcome: RunOutcome)
      requires WellTaggedStores(stores, flux)
      modifies this`written, this`cancelled
      ensures parseDuration(aggregationInterval).None?
              ==> outcome == InvalidInterval && written == old(written) && cancelled == old(cancelled)
      ensures parseDuration(aggregationInterval).Some? && parseDuration(aggregationInterval).value <= 0
              ==> outcome == TickerPanic && written == old(written) && cancelled == old(cancelled)
      ensures parseDuration(aggregationInterval).Some? && parseDuration(aggregationInterval).value > 0
              ==> && cancelled == (old(cancelled) || CancelCall in signals)
                  && outcome == (if cancelled then Stopped else Waiting)
                  && written == old(written) + CyclesWrites(influxBucket, sensorType, flux, stores,
                                                            1 + (if old(cancelled) then 0 else TicksBeforeCancel(signals)))
    {
      var interval := parseDuration(aggregationInterval);
      if interval.None? {
        return InvalidInterval;
      }
      if interval.value <= 0 {
        return TickerPanic;
      }
      RunAggregation(stores(0));
      outcome := Serve(signals, stores, old(written));
    }

    /** The select loop of Run, entered after the immediate first cycle: a
        context cancelled already is Done at once; otherwise every tick runs a
        cycle until the job's cancel function is called. */
    method Serve(signals: seq<Signal>, stores: nat -> Store, ghost base: seq<Write>) returns (outcome: RunOutcome)
      requires WellTaggedStores(stores, flux)
      requires written == base + CyclesWrites(influxBucket, sensorType, flux, stores, 1)
      modifies this`written, this`cancelled
      ensures cancelled == (old(cancelled) || CancelCall in signals)
      ensures outcome == (if cancelled then Stopped else Waiting)
      ensures written == base + CyclesWrites(influxBucket, sensorType, flux, stores,
                                             1 + (if old(cancelled) then 0 else TicksBeforeCancel(signals)))
    {
      if cancelled {
        return Stopped;
      }
      outcome := ServeTicks(signals, stores, base);
    }

    /** One tick's cycle: cycle n sees the database as stores(n). */
    method NextCycle(stores: nat -> Store, ghost base: seq<Write>, n: nat)
      requires WellTaggedStores(stores, flux)
      requires written == base + CyclesWrites(influxBucket, sensorType, flux, stores, n)
      modifies this`written
      ensures written == base + CyclesWrites(influxBucket, sensorType, flux, stores, n + 1)
    {
      RunAggregation(stores(n));
    }

    /** The select loop of a job whose context is not yet cancelled. */
    method ServeTicks(signals: seq<Signal>, stores: nat -> Store, ghost base: seq<Write>) returns (outcome: RunOutcome)
      requires WellTaggedStores(stores, flux)
      requires !cancelled
      requires written == base + CyclesWrites(influxBucket, sensorType, flux, stores, 1)
      modifies this`written, this`cancelled
      ensures cancelled == (CancelCall in signals)
      ensures outcome == (if CancelCall in signals then Stopped else Waiting)
      ensures written == base + CyclesWrites(influxBucket, sensorType, flux, stores, 1 + TicksBeforeCancel(signals))
    {
      var cycles := 1;
      var i := 0;
      while i < |signals|
        invariant 0 <= i <= |signals|
        invariant forall j :: 0 <= j < i ==> signals[j].Tick?
        invariant cycles == i + 1
        invariant written == base + CyclesWrites(influxBucket, sensorType, flux, stores, cycles)
        modifies this`written
      {
        if signals[i].CancelCall? {
          break;
        }
        NextCycle(stores, base, cycles);
        cycles := cycles + 1;
        i := i + 1;
      }
      TicksBeforeFirstCancel(signals, i);
      if i < |signals| {
        cancelled := true;
        return Stopped;
      }
      return Waiting;
    }
  }

  /** AggregatorFactory.CreateAggregators: three distinct jobs, for
      temperature, humidity and electricity in that order, built from one
      configuration. */
  method CreateAggregators(config: Config) returns (jobs: seq<Aggregator>)
    ensures |jobs| == |DOMAINS|
    ensures forall i :: 0 <= i < |jobs| ==>
              && fresh(jobs[i])
              && jobs[i].sensorType == DOMAINS[i]
              && jobs[i].influxBucket == config.influxBucket
              && jobs[i].aggregationInterval == config.aggregationInterval
              && jobs[i].flux == Sprintf(FluxTemplate(), FluxArgs(config.influxBucket, config.aggregationInterval, DOMAINS[i]))
              && !jobs[i].cancelled && jobs[i].written == []
    ensures forall i, j :: 0 <= i < j < |jobs| ==> jobs[i] != jobs[j]
  {
    var temperature := new Aggregator("temperature", config);
    var humidity := new Aggregator("humidity", config);
    var electricity := new Aggregator("electricity", config);
    jobs := [temperature, humidity, electricity];
  }

  /** Calling one job's cancel function leaves every other job's context as it was. */
  method CancelOne(jobs: seq<Aggregator>, k: nat)
    requires k < |jobs|
    requires forall i, j :: 0 <= i < j < |jobs| ==> jobs[i] != jobs[j]
    modifies jobs[k]
    ensures jobs[k].cancelled
    ensures forall j :: 0 <= j < |jobs| && j != k ==> jobs[j].cancelled == old(jobs[j].cancelled)
  {
    jobs[k].Cancel();
  }

  /** After one job is cancelled, another job that is not cancelled itself still
      runs its first cycle and one cycle for every tick, and is still running
      when the ticks observed so far run out. */
  method CancelOneOthersRun(jobs: seq<Aggregator>, k: nat, j: nat, parseDuration: string -> Option<int>,
                            signals: seq<Signal>, stores: nat -> Store) returns (outcome: RunOutcome)
    requires k < |jobs| && j < |jobs| && j != k
    requires forall a, b :: 0 <= a < b < |jobs| ==> jobs[a] != jobs[b]
    requires !jobs[j].cancelled && CancelCall !in signals
    requires parseDuration(jobs[j].aggregationInterval).Some? && parseDuration(jobs[j].aggregationInterval).value > 0
    requires WellTaggedStores(stores, jobs[j].flux)
    modifies jobs[k], jobs[j]
    ensures jobs[k].cancelled && !jobs[j].cancelled
    ensures outcome == Waiting
    ensures jobs[j].written == old(jobs[j].written)
                               + CyclesWrites(jobs[j].influxBucket, jobs[j].sensorType, jobs[j].flux, stores, 1 + |signals|)
  {
    CancelOne(jobs, k);
    outcome := jobs[j].Run(parseDuration, signals, stores);
    TicksBeforeFirstCancel(signals, |signals|);
  }
}
