/** The query layer the two Python services share (historian/app.py and its
    older single-bucket predecessor graphql/app.py): Flux texts built from
    optional filters, location counting over query records, and the shaping of
    raw readings. The InfluxDB client is a function from a query text to
    "raised" or the tables of records it returns; the bucket is a parameter,
    since each service reads its own from the environment. */
module QueryLayer {
  import opened Common

  /** `record.values` of one Flux record. */
  type Record = map<string, Value>

  datatype Table = Table(records: seq<Record>)

  /** What `query_api.query(text)` does: raise, or return tables of records. */
  datatype Answer = Raised | Tables(tables: seq<Table>)

  type Database = string -> Answer

  /** `record.values.get(key, default)`. */
  function Get(r: Record, key: string, default: Value): Value {
    if key in r then r[key] else default
  }

  /** Python truthiness of a record value, as `if location:` tests it. */
  predicate Truthy(v: Value) {
    match v
    case Str(s) => s != ""
    case Float(x) => x != 0.0
    case Int(i) => i != 0
    case Bool(b) => b
    case Time(_) => true
    case Null => false
  }

  /** An `Optional[str]` argument that `if arg:` accepts: present and non-empty. */
  predicate Given(arg: Option<string>) {
    arg.Some? && arg.value != ""
  }

  // ---------------------------------------------------------------------------
  // Units

  /** The table of get_unit_by_sensorType. */
  const UNITS: map<string, string> := map["temperature" := "\U{00C2}\U{00B0}C", "humidity" := "%", "electricity" := "kW"]

  function UnitOf(sensorType: string): string {
    if sensorType in UNITS then UNITS[sensorType] else ""
  }

  /** get_unit_by_sensorType applied to a record value: only a string can
      equal a key of the table. */
  function UnitOfValue(v: Value): string {
    if v.Str? then UnitOf(v.s) else ""
  }

  lemma UnitTable(sensorType: string)
    ensures UnitOf("temperature") == "\U{00C2}\U{00B0}C"
    ensures UnitOf("humidity") == "%"
    ensures UnitOf("electricity") == "kW"
    ensures sensorType != "temperature" && sensorType != "humidity" && sensorType != "electricity" ==> UnitOf(sensorType) == ""
  {
  }

  // ---------------------------------------------------------------------------
  // Records in iteration order

  /** The records of `for table in tables: for record in table.records`, in order. */
  function Flatten(tables: seq<Table>): seq<Record> {
    if tables == [] then [] else Flatten(tables[..|tables| - 1]) + tables[|tables| - 1].records
  }

  lemma {:induction false} FlattenSplit(tables: seq<Table>, i: nat)
    requires i <= |tables|
    ensures Flatten(tables) == Flatten(tables[..i]) + Flatten(tables[i..])
    decreases |tables|
  {
    if i == |tables| {
      assert tables[..i] == tables;
      assert tables[i..] == [];
    } else {
      var n := |tables|;
      var front := tables[..n - 1];
      FlattenSplit(front, i);
      assert front[..i] == tables[..i];
      assert front[i..] == tables[i..][..|tables[i..]| - 1];
      assert tables[i..][|tables[i..]| - 1] == tables[n - 1];
    }
  }

  /** Where the record `tables[i].records[j]` sits in the flattened sequence. */
  lemma FlattenAt(tables: seq<Table>, i: nat, j: nat)
    requires i < |tables| && j < |tables[i].records|
    ensures var before := Flatten(tables[..i]) + tables[i].records[..j];
      |before| < |Flatten(tables)| && Flatten(tables)[..|before|] == before && Flatten(tables)[|before|] == tables[i].records[j]
  {
    var rs := tables[i].records;
    var front, rest := Flatten(tables[..i]), Flatten(tables[i + 1..]);
    var before, after := front + rs[..j], rs[j..] + rest;
    FlattenSplit(tables, i + 1);
    assert Flatten(tables[..i + 1]) == front + rs by {
      assert tables[..i + 1][..i] == tables[..i];
    }
    assert Flatten(tables) == before + after by {
      assert rs == rs[..j] + rs[j..];
      Reassociate(front, rs[..j], rs[j..], rest);
    }
    assert after[0] == rs[j];
  }

  lemma Reassociate<T>(a: seq<T>, b: seq<T>, c: seq<T>, d: seq<T>)
    ensures (a + (b + c)) + d == (a + b) + (c + d)
  {
  }

  // ---------------------------------------------------------------------------
  // get_all_locations

  datatype LocationInfo = LocationInfo(name: Value, sensorCount: nat)

  /** The location a record carries, when `if location:` accepts it. */
  function TruthyLocation(r: Record): seq<Value> {
    var location := Get(r, "location", Null);
    if Truthy(location) then [location] else []
  }

  /** The locations the counting loop adds to the dictionary, in order. */
  function LocationsIn(rs: seq<Record>): seq<Value> {
    if rs == [] then [] else LocationsIn(rs[..|rs| - 1]) + TruthyLocation(rs[|rs| - 1])
  }

  /** The values in first-occurrence order: the key order of a Python dict. */
  function Distinct(s: seq<Value>): seq<Value> {
    if s == [] then []
    else
      var front := Distinct(s[..|s| - 1]);
      if s[|s| - 1] in front then front else front + [s[|s| - 1]]
  }

  function Count(s: seq<Value>, v: Value): nat {
    if s == [] then 0 else Count(s[..|s| - 1], v) + (if s[|s| - 1] == v then 1 else 0)
  }

  /** The dictionary `location_counts` listed by `.items()`. */
  function Tally(s: seq<Value>): seq<LocationInfo> {
    var keys := Distinct(s);
    seq(|keys|, i requires 0 <= i < |keys| => LocationInfo(keys[i], Count(s, keys[i])))
  }

  /** The number of records whose `location` is `v`: the reference count. */
  function Carrying(rs: seq<Record>, v: Value): nat {
    if rs == [] then 0 else Carrying(rs[..|rs| - 1], v) + (if Get(rs[|rs| - 1], "location", Null) == v then 1 else 0)
  }

  lemma {:induction false} DistinctMembers(s: seq<Value>)
    ensures forall v :: v in Distinct(s) <==> v in s
  {
    if s != [] {
      DistinctMembers(s[..|s| - 1]);
      assert s == s[..|s| - 1] + [s[|s| - 1]];
    }
  }

  lemma {:induction false} DistinctUnique(s: seq<Value>)
    ensures forall i, j :: 0 <= i < j < |Distinct(s)| ==> Distinct(s)[i] != Distinct(s)[j]
  {
    if s != [] {
      DistinctUnique(s[..|s| - 1]);
    }
  }

  lemma {:induction false} CountPositive(s: seq<Value>, v: Value)
    ensures Count(s, v) > 0 <==> v in s
  {
    if s != [] {
      CountPositive(s[..|s| - 1], v);
      assert s == s[..|s| - 1] + [s[|s| - 1]];
    }
  }

  lemma {:induction false} CountIsCarrying(rs: seq<Record>, v: Value)
    requires Truthy(v)
    ensures Count(LocationsIn(rs), v) == Carrying(rs, v)
  {
    if rs != [] {
      var front := rs[..|rs| - 1];
      CountIsCarrying(front, v);
      var location := Get(rs[|rs| - 1], "location", Null);
      var s := LocationsIn(front);
      assert Carrying(rs, v) == Carrying(front, v) + (if location == v then 1 else 0);
      if Truthy(location) {
        assert LocationsIn(rs) == s + [location];
        CountSnoc(s, location, v);
      } else {
        assert LocationsIn(rs) == s by {
          assert LocationsIn(rs) == s + [];
        }
      }
    }
  }

  lemma CountSnoc(s: seq<Value>, x: Value, v: Value)
    ensures Count(s + [x], v) == Count(s, v) + (if x == v then 1 else 0)
  {
    assert (s + [x])[..|s|] == s;
  }

  lemma {:induction false} LocationsInMeaning(rs: seq<Record>)
    ensures forall v :: v in LocationsIn(rs) <==> Truthy(v) && exists k :: 0 <= k < |rs| && Get(rs[k], "location", Null) == v
  {
    if rs != [] {
      var front := rs[..|rs| - 1];
      LocationsInMeaning(front);
      forall v | Truthy(v) && exists k :: 0 <= k < |rs| && Get(rs[k], "location", Null) == v
        ensures v in LocationsIn(rs)
      {
        var k :| 0 <= k < |rs| && Get(rs[k], "location", Null) == v;
        if k < |rs| - 1 {
          assert front[k] == rs[k];
        }
      }
      forall v | v in LocationsIn(rs)
        ensures Truthy(v) && exists k :: 0 <= k < |rs| && Get(rs[k], "location", Null) == v
      {
        if v in LocationsIn(front) {
          var k :| 0 <= k < |front| && Get(front[k], "location", Null) == v;
          assert rs[k] == front[k];
        } else {
          assert Get(rs[|rs| - 1], "location", Null) == v;
        }
      }
    }
  }

  /** get_all_locations: every distinct truthy location, once, with the number
      of records carrying it; records without one are skipped. */
  lemma LocationCounts(rs: seq<Record>)
    ensures var infos := Tally(LocationsIn(rs));
      (forall i :: 0 <= i < |infos| ==> Truthy(infos[i].name) && 0 < infos[i].sensorCount == Carrying(rs, infos[i].name))
      && (forall i, j :: 0 <= i < j < |infos| ==> infos[i].name != infos[j].name)
      && (forall k :: 0 <= k < |rs| && Truthy(Get(rs[k], "location", Null)) ==>
            exists i :: 0 <= i < |infos| && infos[i].name == Get(rs[k], "location", Null))
  {
    var s := LocationsIn(rs);
    var keys := Distinct(s);
    var infos := Tally(s);
    DistinctMembers(s);
    DistinctUnique(s);
    LocationsInMeaning(rs);
    forall i | 0 <= i < |infos|
      ensures Truthy(infos[i].name) && 0 < infos[i].sensorCount == Carrying(rs, infos[i].name)
    {
      assert infos[i].name == keys[i] && keys[i] in s;
      CountPositive(s, keys[i]);
      CountIsCarrying(rs, keys[i]);
    }
    forall k | 0 <= k < |rs| && Truthy(Get(rs[k], "location", Null))
      ensures exists i :: 0 <= i < |infos| && infos[i].name == Get(rs[k], "location", Null)
    {
      var v := Get(rs[k], "location", Null);
      assert v in keys;
      var i :| 0 <= i < |keys| && keys[i] == v;
      assert infos[i].name == v;
    }
  }

  /** The Flux text of get_all_locations. */
  function LocationsQuery(bucket: string): string {
    "\n    import \"influxdata/influxdb/schema\"\n    \n    schema.measurements(bucket: \"" + bucket
    + "\")\n        |> schema.tagKeys()\n        |> filter(fn: (r) => r._value == \"location\")\n        |> group()\n        |> yield()\n    "
  }

  /** What get_all_locations makes of the query's answer: nothing when the
      query raises. */
  function LocationsAnswer(answer: Answer): seq<LocationInfo> {
    match answer
    case Raised => []
    case Tables(tables) => Tally(LocationsIn(Flatten(tables)))
  }

  /** What get_all_locations returns. */
  function Locations(db: Database, bucket: string): seq<LocationInfo> {
    LocationsAnswer(db(LocationsQuery(bucket)))
  }

  /** The state of `location_counts`: keys in insertion order and their counts. */
  ghost predicate Tallied(seen: seq<Value>, order: seq<Value>, counts: map<Value, nat>) {
    order == Distinct(seen)
    && (forall v :: v in counts <==> v in seen)
    && (forall v :: v in counts ==> counts[v] == Count(seen, v))
  }

  lemma LocationsInStep(rs: seq<Record>, r: Record)
    ensures LocationsIn(rs + [r]) == LocationsIn(rs) + TruthyLocation(r)
  {
    assert (rs + [r])[..|rs|] == rs;
  }

  /** One `location_counts[location] = location_counts.get(location, 0) + 1`. */
  lemma TallyStep(seen: seq<Value>, order: seq<Value>, counts: map<Value, nat>, x: Value)
    requires Tallied(seen, order, counts)
    ensures Tallied(seen + [x], if x in counts then order else order + [x], counts[x := (if x in counts then counts[x] else 0) + 1])
  {
    var s := seen + [x];
    var counts' := counts[x := (if x in counts then counts[x] else 0) + 1];
    DistinctMembers(seen);
    assert s[..|seen|] == seen && s[|s| - 1] == x;
    assert Distinct(s) == if x in counts then order else order + [x];
    forall v
      ensures v in counts' <==> v in s
    {
      assert v in s <==> v in seen || v == x;
    }
    forall v | v in counts'
      ensures counts'[v] == Count(s, v)
    {
      assert Count(s, v) == Count(seen, v) + (if x == v then 1 else 0);
      CountPositive(seen, v);
    }
  }

  /** The counting loops of get_all_locations and the list built from the dictionary. */
  method CountLocations(tables: seq<Table>) returns (infos: seq<LocationInfo>)
    ensures infos == Tally(LocationsIn(Flatten(tables)))
  {
    var order: seq<Value> := [];
    var counts: map<Value, nat> := map[];
    var i := 0;
    while i < |tables|
      invariant 0 <= i <= |tables|
      invariant Tallied(LocationsIn(Flatten(tables[..i])), order, counts)
    {
      order, counts := CountRecords(tables[i].records, Flatten(tables[..i]), order, counts);
      assert tables[..i + 1][..i] == tables[..i];
      i := i + 1;
    }
    assert tables[..i] == tables;
    ghost var seen := LocationsIn(Flatten(tables));
    DistinctMembers(seen);
    infos := seq(|order|, k requires 0 <= k < |order| => LocationInfo(order[k], counts[order[k]]));
  }

  /** The inner loop of get_all_locations, over the records of one table. */
  method CountRecords(records: seq<Record>, ghost done: seq<Record>, order0: seq<Value>, counts0: map<Value, nat>)
    returns (order: seq<Value>, counts: map<Value, nat>)
    requires Tallied(LocationsIn(done), order0, counts0)
    ensures Tallied(LocationsIn(done + records), order, counts)
  {
    order, counts := order0, counts0;
    ghost var prefix := done;
    SliceSnoc(done, records, 0);
    var j := 0;
    while j < |records|
      invariant 0 <= j <= |records|
      invariant prefix == done + records[..j]
      invariant Tallied(LocationsIn(prefix), order, counts)
    {
      ghost var seen := LocationsIn(prefix);
      LocationsInStep(prefix, records[j]);
      var location := Get(records[j], "location", Null);
      if Truthy(location) {
        assert TruthyLocation(records[j]) == [location];
        TallyStep(seen, order, counts, location);
        var count := if location in counts then counts[location] else 0;
        if location !in counts {
          order := order + [location];
        }
        counts := counts[location := count + 1];
      } else {
        assert TruthyLocation(records[j]) == [];
        assert seen + [] == seen;
      }
      SliceSnoc(done, records, j);
      prefix := prefix + [records[j]];
      j := j + 1;
    }
    assert records[..j] == records;
  }

  lemma SliceSnoc<T>(done: seq<T>, s: seq<T>, j: nat)
    requires j <= |s|
    ensures j == 0 ==> done + s[..j] == done
    ensures j < |s| ==> done + s[..j + 1] == (done + s[..j]) + [s[j]]
  {
    if j < |s| {
      assert s[..j + 1] == s[..j] + [s[j]];
    }
  }

  /** get_all_locations over a bucket. */
  method QueryLocations(db: Database, bucket: string) returns (infos: seq<LocationInfo>)
    ensures infos == Locations(db, bucket)
  {
    var answer := db(LocationsQuery(bucket));
    infos := TallyAnswer(answer);
  }

  /** The `try` of get_all_locations: the `except` branch returns nothing. */
  method TallyAnswer(answer: Answer) returns (infos: seq<LocationInfo>)
    ensures infos == LocationsAnswer(answer)
  {
    if answer.Raised? {
      return [];
    }
    infos := CountLocations(answer.tables);
  }

  // ---------------------------------------------------------------------------
  // Query texts

  /** One `|> filter(fn: (r) => r.<column> == "<value>")` line. */
  datatype Filter = Filter(column: string, value: string)

  const MEASUREMENT_COLUMN: string := "_measurement"
  const SENSOR_ID_COLUMN: string := "sensorId"
  const LOCATION_COLUMN: string := "location"

  function FilterLine(f: Filter): string {
    "|> filter(fn: (r) => r." + f.column + " == \"" + f.value + "\")\n"
  }

  function Lines(fs: seq<Filter>): string {
    if fs == [] then "" else FilterLine(fs[0]) + Lines(fs[1..])
  }

  lemma {:induction false} LinesConcat(a: seq<Filter>, b: seq<Filter>)
    ensures Lines(a + b) == Lines(a) + Lines(b)
  {
    if a == [] {
      assert a + b == b;
    } else {
      LinesConcat(a[1..], b);
      assert (a + b)[0] == a[0];
      assert (a + b)[1..] == a[1..] + b;
      Regroup3(FilterLine(a[0]), Lines(a[1..]), Lines(b));
    }
  }

  lemma Regroup3(x: string, y: string, z: string)
    ensures x + (y + z) == (x + y) + z
  {
  }

  /** The filter `if arg:` adds for a column. */
  function Optional(column: string, arg: Option<string>): seq<Filter> {
    if Given(arg) then [Filter(column, arg.value)] else []
  }

  /** The filter a record passes: Flux's `==` on a column the record has. */
  predicate Matches(r: Record, f: Filter) {
    f.column in r && r[f.column] == Str(f.value)
  }

  /** The records a chain of filter lines keeps. */
  predicate Admits(fs: seq<Filter>, r: Record) {
    forall i :: 0 <= i < |fs| ==> Matches(r, fs[i])
  }

  /** The arguments of get_sensor_readings. */
  datatype Request = Request(
    sensorType: Option<string>,
    sensorId: Option<string>,
    location: Option<string>,
    startTime: Option<string>,
    endTime: Option<string>,
    limit: int)

  /** The clock readings the defaulting takes, one for each argument it fills. */
  datatype Clock = Clock(atStart: Instant, atEnd: Instant)

  /** `range(start: ..., stop: ...)`. */
  datatype Range = Range(start: string, stop: string)

  /** The time range: a given argument verbatim, otherwise the clock reading
      (less `span` for the start) in isoformat with "Z" appended. */
  function Window(req: Request, clock: Clock, span: int, iso: Instant -> string): Range {
    Range(if Given(req.startTime) then req.startTime.value else iso(clock.atStart - span) + "Z",
          if Given(req.endTime) then req.endTime.value else iso(clock.atEnd) + "Z")
  }

  /** The filters of the raw query, in the order they are appended. */
  function RawFilters(req: Request): seq<Filter> {
    Optional(MEASUREMENT_COLUMN, req.sensorType) + Optional(SENSOR_ID_COLUMN, req.sensorId) + Optional(LOCATION_COLUMN, req.location)
  }

  function ColumnRank(column: string): nat {
    if column == MEASUREMENT_COLUMN then 0 else if column == SENSOR_ID_COLUMN then 1 else 2
  }

  /** A filter is in the raw query exactly when its argument is given, and the
      filters keep the order sensorType, sensorId, location. */
  lemma RawFiltersGiven(req: Request, v: string)
    ensures Filter(MEASUREMENT_COLUMN, v) in RawFilters(req) <==> Given(req.sensorType) && req.sensorType.value == v
    ensures Filter(SENSOR_ID_COLUMN, v) in RawFilters(req) <==> Given(req.sensorId) && req.sensorId.value == v
    ensures Filter(LOCATION_COLUMN, v) in RawFilters(req) <==> Given(req.location) && req.location.value == v
    ensures forall i, j :: 0 <= i < j < |RawFilters(req)| ==> ColumnRank(RawFilters(req)[i].column) < ColumnRank(RawFilters(req)[j].column)
  {
  }

  /** What the raw query's filters select: an argument left out constrains nothing. */
  lemma RawFiltersSelect(req: Request, r: Record)
    ensures Admits(RawFilters(req), r) <==>
      (Given(req.sensorType) ==> Matches(r, Filter(MEASUREMENT_COLUMN, req.sensorType.value)))
      && (Given(req.sensorId) ==> Matches(r, Filter(SENSOR_ID_COLUMN, req.sensorId.value)))
      && (Given(req.location) ==> Matches(r, Filter(LOCATION_COLUMN, req.location.value)))
  {
    var a := Optional(MEASUREMENT_COLUMN, req.sensorType);
    var b := Optional(SENSOR_ID_COLUMN, req.sensorId);
    var c := Optional(LOCATION_COLUMN, req.location);
    AdmitsConcat(a, b, r);
    AdmitsConcat(a + b, c, r);
    AdmitsOptional(MEASUREMENT_COLUMN, req.sensorType, r);
    AdmitsOptional(SENSOR_ID_COLUMN, req.sensorId, r);
    AdmitsOptional(LOCATION_COLUMN, req.location, r);
  }

  lemma AdmitsOptional(column: string, arg: Option<string>, r: Record)
    ensures Admits(Optional(column, arg), r) <==> (Given(arg) ==> Matches(r, Filter(column, arg.value)))
  {
    if Given(arg) {
      assert Optional(column, arg)[0] == Filter(column, arg.value);
    }
  }

  lemma AdmitsConcat(a: seq<Filter>, b: seq<Filter>, r: Record)
    ensures Admits(a + b, r) <==> Admits(a, r) && Admits(b, r)
  {
    if Admits(a, r) && Admits(b, r) {
      forall i | 0 <= i < |a + b|
        ensures Matches(r, (a + b)[i])
      {
        if i >= |a| {
          assert (a + b)[i] == b[i - |a|];
        }
      }
    }
    if Admits(a + b, r) {
      forall i | 0 <= i < |a|
        ensures Matches(r, a[i])
      {
        assert (a + b)[i] == a[i];
      }
      forall i | 0 <= i < |b|
        ensures Matches(r, b[i])
      {
        assert (a + b)[|a| + i] == b[i];
      }
    }
  }

  function RawHead(bucket: string, range: Range): string {
    "\n    from(bucket: \"" + bucket + "\")\n        |> range(start: " + range.start + ", stop: " + range.stop + ")\n    "
  }

  const SORT_BY_TIME_DESC: string := "\n        |> sort(columns: [\"_time\"], desc: true)\n        |> limit(n: "

  function RawTail(limit: int): string {
    SORT_BY_TIME_DESC + IntToDecimal(limit) + ")\n    "
  }

  /** The raw query: head, the given filters, then the sort and the limit. */
  function RawQuery(bucket: string, range: Range, req: Request): string {
    RawHead(bucket, range) + Lines(RawFilters(req)) + RawTail(req.limit)
  }

  predicate EndsWith(s: string, suffix: string) {
    |suffix| <= |s| && s[|s| - |suffix|..] == suffix
  }

  /** The raw query always ends with the descending `_time` sort and a limit
      whose digits read back as `limit`. */
  lemma RawQueryLimit(bucket: string, range: Range, req: Request)
    ensures EndsWith(RawQuery(bucket, range, req), SORT_BY_TIME_DESC + IntToDecimal(req.limit) + ")\n    ")
    ensures ParseInt(IntToDecimal(req.limit)) == Some(req.limit)
  {
    IntDecimalRoundTrip(req.limit);
  }

  /** The `+=` steps of the raw query builder. */
  method BuildRawQuery(bucket: string, range: Range, req: Request) returns (query: string)
    ensures query == RawQuery(bucket, range, req)
  {
    var a := Optional(MEASUREMENT_COLUMN, req.sensorType);
    var b := Optional(SENSOR_ID_COLUMN, req.sensorId);
    var c := Optional(LOCATION_COLUMN, req.location);
    query := RawHead(bucket, range);
    if Given(req.sensorType) {
      query := query + FilterLine(Filter(MEASUREMENT_COLUMN, req.sensorType.value));
    }
    assert query == RawHead(bucket, range) + Lines(a);
    if Given(req.sensorId) {
      query := query + FilterLine(Filter(SENSOR_ID_COLUMN, req.sensorId.value));
    }
    assert query == RawHead(bucket, range) + Lines(a) + Lines(b);
    if Given(req.location) {
      query := query + FilterLine(Filter(LOCATION_COLUMN, req.location.value));
    }
    assert query == RawHead(bucket, range) + Lines(a) + Lines(b) + Lines(c);
    LinesConcat(a, b);
    LinesConcat(a + b, c);
    Regroup(RawHead(bucket, range), Lines(a), Lines(b), Lines(c), RawTail(req.limit));
    query := query + RawTail(req.limit);
  }

  lemma Regroup(head: string, x: string, y: string, z: string, tail: string)
    ensures head + x + y + z + tail == head + ((x + y) + z) + tail
  {
  }

  // ---------------------------------------------------------------------------
  // get_sensor_readings

  datatype SensorReading = SensorReading(sensorId: Value, sensorType: Value, location: Value, value: Value, unit: string, timestamp: string)

  /** `record.values.get("_time").isoformat()` succeeds: the value is a datetime. */
  predicate HasTime(r: Record) {
    "_time" in r && r["_time"].Time?
  }

  /** The position of the first record whose `_time` has no isoformat, where the
      shaping loop raises; |rs| when there is none. */
  function FirstUntimed(rs: seq<Record>): (n: nat)
    ensures n <= |rs|
    ensures forall k :: 0 <= k < n ==> HasTime(rs[k])
    ensures n < |rs| ==> !HasTime(rs[n])
  {
    if rs == [] then 0 else if !HasTime(rs[0]) then 0 else 1 + FirstUntimed(rs[1..])
  }

  lemma FirstUntimedAt(rs: seq<Record>, n: nat)
    requires n <= |rs| && forall k :: 0 <= k < n ==> HasTime(rs[k])
    requires n < |rs| ==> !HasTime(rs[n])
    ensures FirstUntimed(rs) == n
  {
  }

  /** One SensorReading, with the defaults of the `get` calls. */
  function Reading(r: Record, iso: Instant -> string): SensorReading
    requires HasTime(r)
  {
    var measurement := Get(r, "_measurement", Str(""));
    SensorReading(Get(r, "sensorId", Str("")), measurement, Get(r, "location", Str("")), Get(r, "_value", Float(0.0)),
                  UnitOfValue(measurement), iso(r["_time"].t))
  }

  /** Missing tags default to "" and a missing value to 0.0; present ones are
      copied; the unit follows the measurement. */
  lemma ReadingDefaults(r: Record, iso: Instant -> string)
    requires HasTime(r)
    ensures var x := Reading(r, iso);
      (x.sensorId == if "sensorId" in r then r["sensorId"] else Str(""))
      && (x.sensorType == if "_measurement" in r then r["_measurement"] else Str(""))
      && (x.location == if "location" in r then r["location"] else Str(""))
      && (x.value == if "_value" in r then r["_value"] else Float(0.0))
      && x.unit == UnitOfValue(x.sensorType)
      && x.timestamp == iso(r["_time"].t)
  {
  }

  /** The readings of the records, or nothing when one of them raises. */
  function RawReadings(rs: seq<Record>, iso: Instant -> string): seq<SensorReading> {
    if FirstUntimed(rs) < |rs| then []
    else seq(|rs|, k requires 0 <= k < |rs| => Reading(rs[k], iso))
  }

  /** What get_sensor_readings makes of the query's answer. Any failure gives
      nothing. */
  function ReadingsAnswer(answer: Answer, iso: Instant -> string): seq<SensorReading> {
    match answer
    case Raised => []
    case Tables(tables) => RawReadings(Flatten(tables), iso)
  }

  /** What get_sensor_readings returns. */
  function SensorReadings(db: Database, bucket: string, req: Request, clock: Clock, iso: Instant -> string): seq<SensorReading> {
    ReadingsAnswer(db(RawQuery(bucket, Window(req, clock, HOUR, iso), req)), iso)
  }

  /** With both bounds given, the readings do not depend on what the clock reads. */
  lemma GivenBoundsIgnoreClock(db: Database, bucket: string, req: Request, c1: Clock, c2: Clock, iso: Instant -> string)
    requires Given(req.startTime) && Given(req.endTime)
    ensures SensorReadings(db, bucket, req, c1, iso) == SensorReadings(db, bucket, req, c2, iso)
  {
  }

  /** Either every record gives one reading, in order, or the result is empty
      because a query failure or a record without a time raised. */
  lemma ReadingsAnswerMeaning(answer: Answer, iso: Instant -> string)
    ensures var out := ReadingsAnswer(answer, iso);
      match answer
      case Raised => out == []
      case Tables(tables) =>
        var rs := Flatten(tables);
        ((exists k :: 0 <= k < |rs| && !HasTime(rs[k])) ==> out == [])
        && ((forall k :: 0 <= k < |rs| ==> HasTime(rs[k])) ==> |out| == |rs| && forall k :: 0 <= k < |rs| ==> out[k] == Reading(rs[k], iso))
  {
  }

  /** The record loop of get_sensor_readings, which the first record without a
      time ends with the empty result. */
  method ShapeReadings(tables: seq<Table>, iso: Instant -> string) returns (readings: seq<SensorReading>)
    ensures readings == RawReadings(Flatten(tables), iso)
  {
    readings := [];
    var i := 0;
    while i < |tables|
      invariant 0 <= i <= |tables|
      invariant |readings| == |Flatten(tables[..i])|
      invariant forall k :: 0 <= k < |readings| ==> HasTime(Flatten(tables[..i])[k]) && readings[k] == Reading(Flatten(tables[..i])[k], iso)
    {
      var records := tables[i].records;
      ghost var before := Flatten(tables[..i]);
      var j := 0;
      while j < |records|
        invariant 0 <= j <= |records|
        invariant |readings| == |before + records[..j]|
        invariant forall k :: 0 <= k < |readings| ==> HasTime((before + records[..j])[k]) && readings[k] == Reading((before + records[..j])[k], iso)
      {
        var record := records[j];
        if !HasTime(record) {
          FlattenAt(tables, i, j);
          FirstUntimedAt(Flatten(tables), |before + records[..j]|);
          return [];
        }
        assert before + records[..j + 1] == (before + records[..j]) + [record];
        readings := readings + [Reading(record, iso)];
        j := j + 1;
      }
      assert records[..j] == records;
      assert tables[..i + 1][..i] == tables[..i];
      i := i + 1;
    }
    assert tables[..i] == tables;
    FirstUntimedAt(Flatten(tables), |Flatten(tables)|);
  }

  /** get_sensor_readings over a bucket: `clock` holds the `now` readings the
      defaulting takes. */
  method QueryReadings(db: Database, bucket: string, req: Request, clock: Clock, iso: Instant -> string) returns (readings: seq<SensorReading>)
    ensures readings == SensorReadings(db, bucket, req, clock, iso)
  {
    var range := Window(req, clock, HOUR, iso);
    var query := BuildRawQuery(bucket, range, req);
    var answer := db(query);
    readings := ShapeAnswer(answer, iso);
  }

  /** The `try` of get_sensor_readings: the `except` branch returns nothing. */
  method ShapeAnswer(answer: Answer, iso: Instant -> string) returns (readings: seq<SensorReading>)
    ensures readings == ReadingsAnswer(answer, iso)
  {
    if answer.Raised? {
      return [];
    }
    readings := ShapeReadings(answer.tables, iso);
  }
}
