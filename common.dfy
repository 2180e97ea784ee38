/** Vocabulary shared by the ingestion, aggregation and query-layer models:
    failure-compatible wrappers, instants, dynamically typed values, time-series
    points, and the string helpers the query builders need. */
module Common {

  datatype Option<+T> = None | Some(value: T)

  datatype Result<+T, +E> = Ok(value: T) | Err(error: E)

  /** An instant on the wall clock, in nanoseconds since 1970-01-01T00:00:00Z.
      Go's time.Time and Python's datetime are both modelled by it; the
      monotonic clock reading and the time zone are not modelled. */
  type Instant = int

  const NANOS_PER_SECOND: int := 1_000_000_000
  const HOUR: int := 3600 * NANOS_PER_SECOND
  const DAY: int := 24 * HOUR

  newtype byte = x: int | 0 <= x < 256

  /** A raw message payload as it arrives on the bus. */
  type Bytes = seq<byte>

  /** A dynamically typed value: a Go interface{} taken from a query row, or a
      Python object taken from a query record. */
  datatype Value =
    | Str(s: string)
    | Float(r: real)
    | Int(i: int)
    | Bool(b: bool)
    | Time(t: Instant)
    | Null

  /** A time-series point as it is handed to an InfluxDB write API. */
  datatype Point = Point(measurement: string, tags: map<string, string>, fields: map<string, Value>, time: Instant)

  /** `sub` occurs in `s` starting at position `k`. */
  predicate OccursAt(s: string, sub: string, k: int) {
    0 <= k <= |s| - |sub| && s[k..k + |sub|] == sub
  }

  /** `sub` occurs in `s` at some position. */
  ghost predicate Contains(s: string, sub: string) {
    exists k :: OccursAt(s, sub, k)
  }

  lemma ContainsMiddle(a: string, sub: string, b: string)
    ensures Contains(a + sub + b, sub)
  {
    var s := a + sub + b;
    assert OccursAt(s, sub, |a|);
  }

  function DigitChar(d: nat): (c: char)
    requires d < 10
    ensures '0' <= c <= '9' && c as int - '0' as int == d
  {
    "0123456789"[d]
  }

  predicate IsDigits(s: string) {
    forall i :: 0 <= i < |s| ==> '0' <= s[i] <= '9'
  }

  /** Decimal rendering of a natural number, shortest form (Python's str(int),
      Go's %d). */
  function NatToDecimal(n: nat): (s: string)
    ensures |s| >= 1 && IsDigits(s)
    ensures |s| > 1 ==> s[0] != '0'
    decreases n
  {
    if n < 10 then [DigitChar(n)] else NatToDecimal(n / 10) + [DigitChar(n % 10)]
  }

  /** The number a string of decimal digits denotes: the partner of NatToDecimal. */
  function DecimalValue(s: string): nat
    requires IsDigits(s)
  {
    if |s| == 0 then 0
    else DecimalValue(s[..|s| - 1]) * 10 + (s[|s| - 1] as int - '0' as int)
  }

  lemma {:induction false} DecimalRoundTrip(n: nat)
    ensures DecimalValue(NatToDecimal(n)) == n
  {
    if n >= 10 {
      DecimalRoundTrip(n / 10);
      var s := NatToDecimal(n);
      assert s[..|s| - 1] == NatToDecimal(n / 10);
    }
  }

  /** Decimal rendering of an integer, with a leading '-' when negative. */
  function IntToDecimal(i: int): string {
    if i < 0 then "-" + NatToDecimal(-i) else NatToDecimal(i)
  }

  /** Reads back what IntToDecimal writes. */
  function ParseInt(s: string): Option<int> {
    if |s| > 0 && s[0] == '-' && |s| > 1 && IsDigits(s[1..]) then Some(0 - DecimalValue(s[1..]) as int)
    else if |s| > 0 && IsDigits(s) then Some(DecimalValue(s))
    else None
  }

  lemma IntDecimalRoundTrip(i: int)
    ensures ParseInt(IntToDecimal(i)) == Some(i)
  {
    if i < 0 {
      var n: nat := -i;
      var d := NatToDecimal(n);
      var s := "-" + d;
      assert s[0] == '-' && |s| > 1;
      assert s[1..] == d;
      DecimalRoundTrip(n);
      assert ParseInt(s) == Some(0 - DecimalValue(d) as int);
    } else {
      var d := NatToDecimal(i);
      assert '0' <= d[0] <= '9';
      DecimalRoundTrip(i);
      assert ParseInt(d) == Some(DecimalValue(d));
    }
  }

  /** Python's str.replace(pat, rep): every non-overlapping occurrence of `pat`,
      scanning from the left, is replaced by `rep`. */
  function ReplaceAll(s: string, pat: string, rep: string): string
    requires |pat| > 0
    decreases |s|
  {
    if |s| < |pat| then s
    else if s[..|pat|] == pat then rep + ReplaceAll(s[|pat|..], pat, rep)
    else [s[0]] + ReplaceAll(s[1..], pat, rep)
  }
}
