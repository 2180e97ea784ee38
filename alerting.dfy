/** The alert debouncer of the ingestion consumer: the persisted AlertState, the
    state file and its directory, Go's saturating Time.Sub, the 24-hour decision,
    and the two alert messages (the debounced temperature alert and the test
    alert). Everything here is a pure function of explicit inputs; the class in
    module Consumer performs these steps on its own fields. */
module Alerting {
  import opened Common

  /** One decoded sensor reading (consumer/sensordata.go). */
  datatype SensorData = SensorData(sensorType: string, sensorId: string, location: string, value: real, timestamp: Instant)

  /** The persisted record {"lastAlertTime": ...}. */
  datatype AlertState = AlertState(lastAlertTime: Instant)

  /** Go's zero time.Time, 0001-01-01T00:00:00Z. */
  const ZERO_TIME: Instant := -62135596800 * NANOS_PER_SECOND
  const ZERO_STATE: AlertState := AlertState(ZERO_TIME)

  /** The range of Go's time.Duration (int64 nanoseconds). */
  const MAX_DURATION: int := 0x7fff_ffff_ffff_ffff
  const MIN_DURATION: int := -0x8000_0000_0000_0000

  /** The suppression window, 24*time.Hour. */
  const ALERT_PERIOD: int := DAY

  /** json.Marshal of a time.Time succeeds only for years 0 through 9999. */
  const YEAR_0: Instant := -62167219200 * NANOS_PER_SECOND
  const YEAR_10000: Instant := 253402300800 * NANOS_PER_SECOND

  /** The NATS subject the e-mail service listens on. */
  const EMAILS: string := "emails"

  /** Go's t.Sub(u): the elapsed time t - u as a Duration, saturated at the
      bounds of int64 when the true difference does not fit. */
  function Sub(t: Instant, u: Instant): (d: int)
    ensures MIN_DURATION <= d <= MAX_DURATION
    ensures MIN_DURATION <= t - u <= MAX_DURATION ==> d == t - u
  {
    if t - u > MAX_DURATION then MAX_DURATION
    else if t - u < MIN_DURATION then MIN_DURATION
    else t - u
  }

  /** Saturation never changes a comparison against a representable bound, so
      "now.Sub(last) < 24h" is exactly "now - last < 24h". */
  lemma SubComparesExactly(t: Instant, u: Instant, bound: int)
    requires MIN_DURATION < bound <= MAX_DURATION
    ensures Sub(t, u) < bound <==> t - u < bound
  {
  }

  /** The directory that holds the state file. */
  datatype StateDir = DirPresent | DirAbsent(creatable: bool)

  /** What the state file holds when it can be read. */
  datatype FileData =
    | Blank                      // zero length
    | Unparsable                 // not a JSON document json.Unmarshal accepts for AlertState
    | Encoded(state: AlertState) // a JSON document json.Unmarshal decodes to `state`

  /** The state file: absent, or present with a readability permission and content. */
  datatype AlertFile = Missing | Present(readable: bool, data: FileData)

  datatype StateError = MkdirFailed | ReadFailed | DecodeFailed | MarshalFailed | WriteFailed

  /** os.MkdirAll on the state directory: the directory afterwards, or failure. */
  function MkdirAll(d: StateDir): Option<StateDir> {
    match d
    case DirPresent => Some(DirPresent)
    case DirAbsent(creatable) => if creatable then Some(DirPresent) else None
  }

  /** The directory after shouldSendAlert has tried to create it. */
  function DirAfterCheck(d: StateDir): StateDir {
    match MkdirAll(d)
    case Some(d') => d'
    case None => d
  }

  /** loadAlertState: a missing file or a zero-length one is the zero state;
      an unreadable or unparsable one is an error. */
  function LoadAlertState(f: AlertFile): Result<AlertState, StateError> {
    match f
    case Missing => Ok(ZERO_STATE)
    case Present(readable, data) =>
      if !readable then Err(ReadFailed)
      else
        match data
        case Blank => Ok(ZERO_STATE)
        case Unparsable => Err(DecodeFailed)
        case Encoded(s) => Ok(s)
  }

  /** The 24-hour rule applied to a loaded state, failing open on a load error. */
  function Permits(loaded: Result<AlertState, StateError>, now: Instant): bool {
    match loaded
    case Err(_) => true
    case Ok(s) => !(Sub(now, s.lastAlertTime) < ALERT_PERIOD)
  }

  /** shouldSendAlert: true when the directory cannot be created, true when the
      state cannot be loaded, otherwise the 24-hour rule. */
  function ShouldSendAlert(d: StateDir, f: AlertFile, now: Instant): bool {
    match MkdirAll(d)
    case None => true
    case Some(_) => Permits(LoadAlertState(f), now)
  }

  predicate Marshalable(t: Instant) {
    YEAR_0 <= t < YEAR_10000
  }

  /** saveAlertState: the state file afterwards, or the error. The write needs
      the directory and a writable file system; an existing file keeps its
      permissions, a new one is created readable (mode 0644). */
  function SaveAlertState(d: StateDir, f: AlertFile, writable: bool, s: AlertState): Result<AlertFile, StateError> {
    if !Marshalable(s.lastAlertTime) then Err(MarshalFailed)
    else if d.DirAbsent? || !writable then Err(WriteFailed)
    else Ok(Present(if f.Present? then f.readable else true, Encoded(s)))
  }

  // ----- properties of the debouncer -----

  lemma MkdirFailureFailsOpen(f: AlertFile, now: Instant)
    ensures ShouldSendAlert(DirAbsent(false), f, now)
  {
  }

  lemma LoadFailureFailsOpen(d: StateDir, f: AlertFile, now: Instant)
    requires LoadAlertState(f).Err?
    ensures ShouldSendAlert(d, f, now)
  {
  }

  /** A load fails exactly for an unreadable or unparsable file. */
  lemma LoadFailsExactly(f: AlertFile)
    ensures LoadAlertState(f).Err? <==> f.Present? && (!f.readable || f.data.Unparsable?)
  {
  }

  /** A missing or zero-length file loads as the zero instant, and the zero
      instant permits an alert at any time from the second day of year 1 on. */
  lemma ZeroStatePermits(d: StateDir, f: AlertFile, now: Instant)
    requires f.Missing? || f == Present(true, Blank)
    requires now >= ZERO_TIME + ALERT_PERIOD
    ensures LoadAlertState(f) == Ok(ZERO_STATE)
    ensures ShouldSendAlert(d, f, now)
  {
  }

  /** With a prepared directory and a loaded state, the alert is suppressed
      exactly when less than 24 hours separate now from the last alert; a last
      alert time in the future therefore suppresses. */
  lemma SuppressedIffWithinPeriod(d: StateDir, f: AlertFile, now: Instant)
    requires MkdirAll(d).Some?
    requires LoadAlertState(f).Ok?
    ensures !ShouldSendAlert(d, f, now) <==> now - LoadAlertState(f).value.lastAlertTime < ALERT_PERIOD
    ensures now < LoadAlertState(f).value.lastAlertTime ==> !ShouldSendAlert(d, f, now)
  {
    SubComparesExactly(now, LoadAlertState(f).value.lastAlertTime, ALERT_PERIOD);
  }

  /** A successful save followed by a load gives back the saved instant,
      provided the file can be read. */
  lemma SaveLoadRoundTrip(d: StateDir, f: AlertFile, writable: bool, s: AlertState)
    requires SaveAlertState(d, f, writable, s).Ok?
    requires f.Missing? || f.readable
    ensures LoadAlertState(SaveAlertState(d, f, writable, s).value) == Ok(s)
  {
  }

  /** A save succeeds exactly when the instant can be marshalled, the directory
      exists and the file system accepts the write. */
  lemma SaveSucceedsExactly(d: StateDir, f: AlertFile, writable: bool, s: AlertState)
    ensures SaveAlertState(d, f, writable, s).Ok? <==> Marshalable(s.lastAlertTime) && d == DirPresent && writable
  {
  }

  // ----- alert messages -----

  /** Renderers the messages use and the model leaves abstract: Go's "%.2f"
      and time.Format(time.RFC1123). */
  datatype Formats = Formats(fixed2: real -> string, rfc1123: Instant -> string)

  /** The map {"subject": ..., "message": ...} that is marshalled and published. */
  datatype AlertMessage = AlertMessage(subject: string, message: string)

  /** One message published on the bus. */
  datatype Publication = Publication(natsSubject: string, payload: AlertMessage)

  const DEGREES_C: string := "\U{00B0}C"

  /** The four body lines that identify a reading, each ending in a newline. */
  function SensorIdLine(d: SensorData): string { "Sensor ID: " + d.sensorId + "\n" }
  function LocationLine(d: SensorData): string { "Location: " + d.location + "\n" }
  function TemperatureLine(fmt: Formats, d: SensorData): string { "Temperature: " + fmt.fixed2(d.value) + DEGREES_C + "\n" }
  function TimeLine(fmt: Formats, d: SensorData): string { "Time: " + fmt.rfc1123(d.timestamp) + "\n" }

  /** The body text between the opening and closing sentences. */
  function DetailLines(fmt: Formats, d: SensorData): string {
    SensorIdLine(d) + LocationLine(d) + TemperatureLine(fmt, d) + TimeLine(fmt, d)
  }

  const ALERT_OPENING: string := "Warning: High temperature detected!\n\n"
  const ALERT_CLOSING: string := "\nPlease check the system as soon as possible."

  /** sendTemperatureAlert's message. */
  function TemperatureAlert(fmt: Formats, d: SensorData): AlertMessage {
    AlertMessage(
      "High Temperature Alert: " + fmt.fixed2(d.value) + DEGREES_C,
      ALERT_OPENING + DetailLines(fmt, d) + ALERT_CLOSING)
  }

  const TEST_SUBJECT: string := "[TEST] Temperature Alert System Check"
  const TEST_OPENING: string := "This is a test email to verify the temperature alert system is working correctly.\n\nTest Details:\n"
  const TEST_CLOSING: string := "\nIf you are receiving this email, the alert system is properly configured."

  /** sendTestAlert's message. */
  function TestAlert(fmt: Formats, d: SensorData): AlertMessage {
    AlertMessage(TEST_SUBJECT, TEST_OPENING + DetailLines(fmt, d) + TEST_CLOSING)
  }

  /** The lines of a message body that identify the reading. */
  ghost predicate ReportsReading(body: string, fmt: Formats, d: SensorData) {
    && Contains(body, SensorIdLine(d))
    && Contains(body, LocationLine(d))
    && Contains(body, TemperatureLine(fmt, d))
    && Contains(body, TimeLine(fmt, d))
  }

  /** Each of four consecutive parts occurs in a text that embeds them. */
  lemma PartsOccur(opening: string, a: string, b: string, c: string, e: string, closing: string)
    ensures var body := opening + (a + b + c + e) + closing;
      Contains(body, a) && Contains(body, b) && Contains(body, c) && Contains(body, e)
  {
    var body := opening + (a + b + c + e) + closing;
    assert body == opening + a + (b + c + e + closing);
    ContainsMiddle(opening, a, b + c + e + closing);
    assert body == (opening + a) + b + (c + e + closing);
    ContainsMiddle(opening + a, b, c + e + closing);
    assert body == (opening + a + b) + c + (e + closing);
    ContainsMiddle(opening + a + b, c, e + closing);
    assert body == (opening + a + b + c) + e + closing;
    ContainsMiddle(opening + a + b + c, e, closing);
  }

  /** Any body that embeds the detail lines reports the reading. */
  lemma DetailLinesReport(opening: string, closing: string, fmt: Formats, d: SensorData)
    ensures ReportsReading(opening + DetailLines(fmt, d) + closing, fmt, d)
  {
    PartsOccur(opening, SensorIdLine(d), LocationLine(d), TemperatureLine(fmt, d), TimeLine(fmt, d), closing);
  }

  /** The subject carries the value to two decimals; the body names the
      sensor, the location, the value and the reading time in RFC 1123 layout. */
  lemma TemperatureAlertReportsReading(fmt: Formats, d: SensorData)
    ensures Contains(TemperatureAlert(fmt, d).subject, fmt.fixed2(d.value) + DEGREES_C)
    ensures ReportsReading(TemperatureAlert(fmt, d).message, fmt, d)
  {
    ContainsMiddle("High Temperature Alert: ", fmt.fixed2(d.value) + DEGREES_C, "");
    assert TemperatureAlert(fmt, d).subject == "High Temperature Alert: " + (fmt.fixed2(d.value) + DEGREES_C) + "";
    DetailLinesReport(ALERT_OPENING, ALERT_CLOSING, fmt, d);
  }

  /** The test alert has a fixed subject and reports the same four lines. */
  lemma TestAlertReportsReading(fmt: Formats, d: SensorData)
    ensures TestAlert(fmt, d).subject == TEST_SUBJECT
    ensures ReportsReading(TestAlert(fmt, d).message, fmt, d)
  {
    DetailLinesReport(TEST_OPENING, TEST_CLOSING, fmt, d);
  }

  /** A test alert can never be mistaken for a debounced one by its subject. */
  lemma TestAlertSubjectDiffers(fmt: Formats, d: SensorData, e: SensorData)
    ensures TestAlert(fmt, d).subject != TemperatureAlert(fmt, e).subject
  {
    assert TestAlert(fmt, d).subject[0] == '[';
    assert TemperatureAlert(fmt, e).subject[0] == 'H';
  }
}
