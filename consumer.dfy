/** The ingestion consumer (consumer/dataconsumer.go, consumer/alert.go,
    consumer/testemail.go): a class whose methods perform, in the source's
    order, the effects of handling one bus message — the point handed to the
    InfluxDB write API, the alert published on NATS, the state directory and the
    state file — each method proved against the pure step functions below. */
module Consumer {
  import opened Common
  import opened Alerting

  /** Default of the consumer's alert threshold (TEMP_ALERT_THRESHOLD). */
  const DEFAULT_TEMP_ALERT_THRESHOLD: real := 30.0

  /** The point StoreData writes for a reading. */
  function RawPoint(d: SensorData): Point {
    Point(d.sensorType, map["sensorId" := d.sensorId, "location" := d.location], map["value" := Float(d.value)], d.timestamp)
  }

  /** What the environment does while one message is handled: the clock read
      by shouldSendAlert, the clock read after publishing, whether NATS accepts
      the publish, and whether the file system accepts the state write. */
  datatype Conditions = Conditions(checkedAt: Instant, savedAt: Instant, publishOk: bool, writable: bool)

  datatype SendError = PublishFailed

  /** The fixed part of a consumer: its threshold, the message renderers, and
      json.Unmarshal into SensorData (abstract and partial). */
  datatype Handler = Handler(threshold: real, formats: Formats, decode: Bytes -> Option<SensorData>)

  /** The part of a consumer that handling a message changes. */
  datatype ConsumerState = ConsumerState(written: seq<Point>, outbox: seq<Publication>, dir: StateDir, file: AlertFile)

  /** The alert condition of MessageHandler: a temperature reading strictly above the threshold. */
  predicate Breach(threshold: real, d: SensorData) {
    d.sensorType == "temperature" && d.value > threshold
  }

  /** sendTemperatureAlert: publish on "emails", then record the clock reading
      taken after the publish. A failed publish changes nothing; a failed save
      is only logged. */
  function SendAlert(st: ConsumerState, fmt: Formats, d: SensorData, c: Conditions): (ConsumerState, Option<SendError>) {
    if !c.publishOk then (st, Some(PublishFailed))
    else
      var sent := st.(outbox := st.outbox + [Publication(EMAILS, TemperatureAlert(fmt, d))]);
      match SaveAlertState(st.dir, st.file, c.writable, AlertState(c.savedAt))
      case Ok(f) => (sent.(file := f), None)
      case Err(_) => (sent, None)
  }

  /** sendTestAlert: publish the test message; the alert state is not touched. */
  function SendTest(st: ConsumerState, fmt: Formats, d: SensorData, publishOk: bool): (ConsumerState, Option<SendError>) {
    if !publishOk then (st, Some(PublishFailed))
    else (st.(outbox := st.outbox + [Publication(EMAILS, TestAlert(fmt, d))]), None)
  }

  /** MessageHandler: drop what does not decode; store every decoded reading;
      on a breach consult the debouncer and, if it permits, send the alert. */
  function HandleMessage(h: Handler, st: ConsumerState, payload: Bytes, c: Conditions): ConsumerState {
    match h.decode(payload)
    case None => st
    case Some(d) =>
      var stored := st.(written := st.written + [RawPoint(d)]);
      if !Breach(h.threshold, d) then stored
      else
        var checked := stored.(dir := DirAfterCheck(st.dir));
        if ShouldSendAlert(st.dir, st.file, c.checkedAt) then SendAlert(checked, h.formats, d, c).0
        else checked
  }

  class DataConsumer {
    const tempAlertThreshold: real
    const decode: Bytes -> Option<SensorData>
    const formats: Formats

    /** Points handed to the write API, in order. */
    var written: seq<Point>
    /** Messages published on NATS, in order. */
    var outbox: seq<Publication>
    var stateDir: StateDir
    var stateFile: AlertFile

    function Config(): Handler {
      Handler(tempAlertThreshold, formats, decode)
    }

    function State(): ConsumerState
      reads this
    {
      ConsumerState(written, outbox, stateDir, stateFile)
    }

    /** NewDataConsumer: the threshold is fixed here, once; no method assigns it. */
    constructor (threshold: real, decode: Bytes -> Option<SensorData>, formats: Formats, dir: StateDir, file: AlertFile)
      ensures Config() == Handler(threshold, formats, decode)
      ensures State() == ConsumerState([], [], dir, file)
    {
      this.tempAlertThreshold := threshold;
      this.decode := decode;
      this.formats := formats;
      this.written := [];
      this.outbox := [];
      this.stateDir := dir;
      this.stateFile := file;
    }

    method StoreData(data: SensorData)
      modifies this`written
      ensures written == old(written) + [RawPoint(data)]
    {
      var p := Point(data.sensorType, map[], map[], data.timestamp);
      p := p.(tags := p.tags["sensorId" := data.sensorId]);
      p := p.(tags := p.tags["location" := data.location]);
      p := p.(fields := p.fields["value" := Float(data.value)]);
      written := written + [p];
    }

    method LoadAlertState() returns (r: Result<AlertState, StateError>)
      ensures r == Alerting.LoadAlertState(stateFile)
    {
      var state := ZERO_STATE;
      if stateFile.Missing? {
        return Ok(state);
      }
      if !stateFile.readable {
        return Err(ReadFailed);
      }
      var data := stateFile.data;
      if !data.Blank? {
        if data.Unparsable? {
          return Err(DecodeFailed);
        }
        state := data.state;
      }
      return Ok(state);
    }

    method SaveAlertState(state: AlertState, writable: bool) returns (err: Option<StateError>)
      modifies this`stateFile
      ensures match Alerting.SaveAlertState(stateDir, old(stateFile), writable, state)
              case Ok(f) => err == None && stateFile == f
              case Err(e) => err == Some(e) && stateFile == old(stateFile)
    {
      if !Marshalable(state.lastAlertTime) {
        return Some(MarshalFailed);
      }
      if stateDir.DirAbsent? || !writable {
        return Some(WriteFailed);
      }
      var readable := if stateFile.Present? then stateFile.readable else true;
      stateFile := Present(readable, Encoded(state));
      return None;
    }

    method ShouldSendAlert(now: Instant) returns (send: bool)
      modifies this`stateDir
      ensures stateDir == DirAfterCheck(old(stateDir))
      ensures send == Alerting.ShouldSendAlert(old(stateDir), stateFile, now)
    {
      var made := MkdirAll(stateDir);
      if made.None? {
        return true;
      }
      stateDir := made.value;
      var loaded := LoadAlertState();
      if loaded.Err? {
        return true;
      }
      if Sub(now, loaded.value.lastAlertTime) < ALERT_PERIOD {
        return false;
      }
      return true;
    }

    method SendTemperatureAlert(data: SensorData, c: Conditions) returns (err: Option<SendError>)
      modifies this`outbox, this`stateFile
      ensures (State(), err) == SendAlert(old(State()), formats, data, c)
    {
      var msg := TemperatureAlert(formats, data);
      if !c.publishOk {
        return Some(PublishFailed);
      }
      outbox := outbox + [Publication(EMAILS, msg)];
      var saveErr := SaveAlertState(AlertState(c.savedAt), c.writable);
      return None;
    }

    method SendTestAlert(data: SensorData, publishOk: bool) returns (err: Option<SendError>)
      modifies this`outbox
      ensures (State(), err) == SendTest(old(State()), formats, data, publishOk)
    {
      var msg := TestAlert(formats, data);
      if !publishOk {
        return Some(PublishFailed);
      }
      outbox := outbox + [Publication(EMAILS, msg)];
      return None;
    }

    method MessageHandler(payload: Bytes, c: Conditions)
      modifies this
      ensures State() == HandleMessage(Config(), old(State()), payload, c)
    {
      var decoded := decode(payload);
      if decoded.None? {
        return;
      }
      var data := decoded.value;
      StoreData(data);
      if data.sensorType == "temperature" && data.value > tempAlertThreshold {
        var send := ShouldSendAlert(c.checkedAt);
        if send {
          var _ := SendTemperatureAlert(data, c);
        }
      }
    }
  }
}
