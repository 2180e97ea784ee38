/** Properties of the ingestion consumer over a sequential log of deliveries:
    what is stored, when an alert can be published, and the 24-hour spacing
    of debounced alerts when every publish and every state write succeeds. */
module ConsumerTrace {
  import opened Common
  import opened Alerting
  import opened Consumer

  /** One message handed to MessageHandler, with what the environment did meanwhile. */
  datatype Delivery = Delivery(payload: Bytes, conditions: Conditions)

  /** The consumer's state after handling `log` in order. */
  function Replay(h: Handler, st: ConsumerState, log: seq<Delivery>): ConsumerState
    decreases |log|
  {
    if log == [] then st
    else Replay(h, HandleMessage(h, st, log[0].payload, log[0].conditions), log[1..])
  }

  /** The processing time (the debouncer's clock reading) of every delivery
      that published an alert, in order. */
  function AlertTimes(h: Handler, st: ConsumerState, log: seq<Delivery>): seq<Instant>
    decreases |log|
  {
    if log == [] then []
    else
      var next := HandleMessage(h, st, log[0].payload, log[0].conditions);
      (if |next.outbox| > |st.outbox| then [log[0].conditions.checkedAt] else [])
      + AlertTimes(h, next, log[1..])
  }

  /** Reference definition of what ingestion stores: one point per payload
      that decodes, in arrival order. */
  function DecodedPoints(decode: Bytes -> Option<SensorData>, log: seq<Delivery>): seq<Point>
    decreases |log|
  {
    if log == [] then []
    else
      (match decode(log[0].payload) case Some(d) => [RawPoint(d)] case None => [])
      + DecodedPoints(decode, log[1..])
  }

  // ----- one message -----

  /** A payload that fails to decode changes nothing: no point, no alert, no state. */
  lemma UndecodableIsDropped(h: Handler, st: ConsumerState, p: Bytes, c: Conditions)
    requires h.decode(p).None?
    ensures HandleMessage(h, st, p, c) == st
  {
  }

  /** A decoded reading is stored exactly once, whatever happens to the alert. */
  lemma DecodedIsStoredOnce(h: Handler, st: ConsumerState, p: Bytes, c: Conditions)
    requires h.decode(p).Some?
    ensures HandleMessage(h, st, p, c).written == st.written + [RawPoint(h.decode(p).value)]
  {
  }

  /** The stored point copies the reading verbatim. */
  lemma RawPointCopiesReading(d: SensorData)
    ensures RawPoint(d).measurement == d.sensorType
    ensures RawPoint(d).tags.Keys == {"sensorId", "location"}
    ensures RawPoint(d).tags["sensorId"] == d.sensorId && RawPoint(d).tags["location"] == d.location
    ensures RawPoint(d).fields == map["value" := Float(d.value)]
    ensures RawPoint(d).time == d.timestamp
  {
  }

  /** An alert is published exactly when the reading decodes, breaches the
      threshold, the debouncer permits it, and NATS accepts the publish; it is
      the temperature alert for that reading, on "emails". */
  lemma AlertIffBreachPermittedAndPublished(h: Handler, st: ConsumerState, p: Bytes, c: Conditions)
    ensures var next := HandleMessage(h, st, p, c);
      next.outbox == st.outbox
      || (h.decode(p).Some? && next.outbox == st.outbox + [Publication(EMAILS, TemperatureAlert(h.formats, h.decode(p).value))])
    ensures var next := HandleMessage(h, st, p, c);
      next.outbox != st.outbox
      <==> h.decode(p).Some? && Breach(h.threshold, h.decode(p).value)
           && ShouldSendAlert(st.dir, st.file, c.checkedAt) && c.publishOk
  {
  }

  // ----- a log of messages -----

  lemma {:induction false} EveryDecodedReadingStoredOnce(h: Handler, st: ConsumerState, log: seq<Delivery>)
    ensures Replay(h, st, log).written == st.written + DecodedPoints(h.decode, log)
    decreases |log|
  {
    if log != [] {
      var next := HandleMessage(h, st, log[0].payload, log[0].conditions);
      EveryDecodedReadingStoredOnce(h, next, log[1..]);
    }
  }

  /** The publication is the temperature alert for a breaching reading that
      some delivery of the log decoded to. */
  ghost predicate BreachAlertFrom(h: Handler, log: seq<Delivery>, pub: Publication) {
    exists i :: 0 <= i < |log| && IsBreachAlert(h, log[i].payload, pub)
  }

  ghost predicate IsBreachAlert(h: Handler, p: Bytes, pub: Publication) {
    && h.decode(p).Some?
    && Breach(h.threshold, h.decode(p).value)
    && pub == Publication(EMAILS, TemperatureAlert(h.formats, h.decode(p).value))
  }

  /** Over any log, the outbox only grows, and every new publication is the
      alert for a breaching reading of that log: no alert without a breach. */
  lemma {:induction false} NoAlertWithoutBreach(h: Handler, st: ConsumerState, log: seq<Delivery>)
    ensures var r := Replay(h, st, log);
      |st.outbox| <= |r.outbox| && r.outbox[..|st.outbox|] == st.outbox
      && forall k :: |st.outbox| <= k < |r.outbox| ==> BreachAlertFrom(h, log, r.outbox[k])
    decreases |log|
  {
    if log != [] {
      var next := HandleMessage(h, st, log[0].payload, log[0].conditions);
      NoAlertWithoutBreach(h, next, log[1..]);
      var r := Replay(h, st, log);
      assert r == Replay(h, next, log[1..]);
      AlertIffBreachPermittedAndPublished(h, st, log[0].payload, log[0].conditions);
      assert r.outbox[..|next.outbox|] == next.outbox;
      forall k | |st.outbox| <= k < |r.outbox|
        ensures BreachAlertFrom(h, log, r.outbox[k])
      {
        if k < |next.outbox| {
          assert next.outbox != st.outbox;
          assert r.outbox[k] == next.outbox[k];
          assert IsBreachAlert(h, log[0].payload, r.outbox[k]);
        } else {
          var i :| 0 <= i < |log[1..]| && IsBreachAlert(h, log[1..][i].payload, r.outbox[k]);
          assert log[1..][i] == log[i + 1];
        }
      }
    }
  }

  /** AlertTimes has one entry per published alert. */
  lemma {:induction false} AlertTimesCountAlerts(h: Handler, st: ConsumerState, log: seq<Delivery>)
    ensures |Replay(h, st, log).outbox| == |st.outbox| + |AlertTimes(h, st, log)|
    decreases |log|
  {
    if log != [] {
      var next := HandleMessage(h, st, log[0].payload, log[0].conditions);
      AlertIffBreachPermittedAndPublished(h, st, log[0].payload, log[0].conditions);
      AlertTimesCountAlerts(h, next, log[1..]);
    }
  }

  // ----- the 24-hour spacing -----

  /** A delivery during which the bus and the file system behave: the publish
      and the state write succeed, the clock does not run backwards between its
      two readings, and the saved instant can be marshalled. */
  predicate Reliable(c: Conditions) {
    c.publishOk && c.writable && c.checkedAt <= c.savedAt && Marshalable(c.savedAt)
  }

  ghost predicate Spaced(ts: seq<Instant>) {
    forall i, j :: 0 <= i < j < |ts| ==> ts[j] - ts[i] >= ALERT_PERIOD
  }

  /** The state file can record alerts, and it remembers an instant no earlier
      than every alert sent so far. */
  ghost predicate Remembers(st: ConsumerState, sent: seq<Instant>) {
    && st.dir != DirAbsent(false)
    && (st.file.Missing? || st.file.readable)
    && (|sent| > 0 ==>
          && st.file.Present? && st.file.data.Encoded?
          && forall i :: 0 <= i < |sent| ==> sent[i] <= st.file.data.state.lastAlertTime)
  }

  lemma StepKeepsSpacing(h: Handler, st: ConsumerState, p: Bytes, c: Conditions, sent: seq<Instant>)
    requires Reliable(c) && Remembers(st, sent) && Spaced(sent)
    ensures var next := HandleMessage(h, st, p, c);
      var sent' := if |next.outbox| > |st.outbox| then sent + [c.checkedAt] else sent;
      Remembers(next, sent') && Spaced(sent')
  {
    var next := HandleMessage(h, st, p, c);
    AlertIffBreachPermittedAndPublished(h, st, p, c);
    if |next.outbox| > |st.outbox| {
      var sent' := sent + [c.checkedAt];
      assert MkdirAll(st.dir) == Some(DirPresent);
      if |sent| > 0 {
        var last := st.file.data.state.lastAlertTime;
        assert LoadAlertState(st.file) == Ok(st.file.data.state);
        SubComparesExactly(c.checkedAt, last, ALERT_PERIOD);
        assert c.checkedAt - last >= ALERT_PERIOD;
      }
      assert next.file == Present(true, Encoded(AlertState(c.savedAt)));
      assert Remembers(next, sent');
    }
  }

  lemma {:induction false} SpacingPersists(h: Handler, st: ConsumerState, log: seq<Delivery>, sent: seq<Instant>)
    requires forall i :: 0 <= i < |log| ==> Reliable(log[i].conditions)
    requires Remembers(st, sent) && Spaced(sent)
    ensures Spaced(sent + AlertTimes(h, st, log))
    decreases |log|
  {
    if log == [] {
      assert sent + AlertTimes(h, st, log) == sent;
    } else {
      var d, tail := log[0], log[1..];
      var next := HandleMessage(h, st, d.payload, d.conditions);
      var now := if |next.outbox| > |st.outbox| then [d.conditions.checkedAt] else [];
      var rest := AlertTimes(h, next, tail);
      assert AlertTimes(h, st, log) == now + rest;
      assert Remembers(next, sent + now) && Spaced(sent + now) by {
        StepKeepsSpacing(h, st, d.payload, d.conditions, sent);
      }
      assert forall i :: 0 <= i < |tail| ==> Reliable(tail[i].conditions) by {
        forall i | 0 <= i < |tail| ensures Reliable(tail[i].conditions) {
          assert tail[i] == log[i + 1];
        }
      }
      SpacingPersists(h, next, tail, sent + now);
      assert sent + (now + rest) == (sent + now) + rest;
    }
  }

  /** Over a sequential log in which every publish and every state write
      succeeds, starting from a directory that can be created and a state file
      that is readable or absent, no two alerts are published less than 24 hours
      apart in processing time. */
  lemma AlertsAtLeastADayApart(h: Handler, st: ConsumerState, log: seq<Delivery>)
    requires forall i :: 0 <= i < |log| ==> Reliable(log[i].conditions)
    requires st.dir != DirAbsent(false)
    requires st.file.Missing? || st.file.readable
    ensures Spaced(AlertTimes(h, st, log))
  {
    SpacingPersists(h, st, log, []);
    assert [] + AlertTimes(h, st, log) == AlertTimes(h, st, log);
  }

  /** Failing open has a price: with an unreadable state file, two breaching
      readings one hour apart both raise an alert. */
  lemma UnreadableStateAlertsTwice(h: Handler, st: ConsumerState, p: Bytes, c1: Conditions, c2: Conditions)
    requires st.file.Present? && !st.file.readable
    requires h.decode(p).Some? && Breach(h.threshold, h.decode(p).value)
    requires c1.publishOk && c2.publishOk && c2.checkedAt == c1.checkedAt + HOUR
    ensures |AlertTimes(h, st, [Delivery(p, c1), Delivery(p, c2)])| == 2
  {
    var log := [Delivery(p, c1), Delivery(p, c2)];
    var next := HandleMessage(h, st, p, c1);
    LoadFailureFailsOpen(st.dir, st.file, c1.checkedAt);
    AlertIffBreachPermittedAndPublished(h, st, p, c1);
    assert next.file.Present? && !next.file.readable;
    var last := HandleMessage(h, next, p, c2);
    LoadFailureFailsOpen(next.dir, next.file, c2.checkedAt);
    AlertIffBreachPermittedAndPublished(h, next, p, c2);
    assert |last.outbox| > |next.outbox| > |st.outbox|;
    assert log[1..] == [Delivery(p, c2)];
    assert log[1..][1..] == [];
    assert AlertTimes(h, last, []) == [];
    assert AlertTimes(h, next, log[1..]) == [c2.checkedAt];
  }

  // ----- end-to-end scenarios -----

  /** A fresh consumer with the default threshold receives a 35.0 degree reading:
      one point is stored, one alert is sent, and the state records the
      processing time. An hour later the same reading is stored but not alerted. */
  lemma FirstAlertThenSuppressed(fmt: Formats, decode: Bytes -> Option<SensorData>, p: Bytes, ts: Instant, t: Instant)
    requires decode(p) == Some(SensorData("temperature", "s1", "room1", 35.0, ts))
    requires Marshalable(t) && Marshalable(t + HOUR) && t >= ZERO_TIME + ALERT_PERIOD
    ensures var h := Handler(DEFAULT_TEMP_ALERT_THRESHOLD, fmt, decode);
      var d := SensorData("temperature", "s1", "room1", 35.0, ts);
      var st0 := ConsumerState([], [], DirAbsent(true), Missing);
      var st1 := HandleMessage(h, st0, p, Conditions(t, t, true, true));
      var st2 := HandleMessage(h, st1, p, Conditions(t + HOUR, t + HOUR, true, true));
      && st1.written == [RawPoint(d)]
      && st1.outbox == [Publication(EMAILS, TemperatureAlert(fmt, d))]
      && st1.file == Present(true, Encoded(AlertState(t)))
      && st2.written == [RawPoint(d), RawPoint(d)]
      && st2.outbox == st1.outbox
      && st2.file == st1.file
  {
    var h := Handler(DEFAULT_TEMP_ALERT_THRESHOLD, fmt, decode);
    var st0 := ConsumerState([], [], DirAbsent(true), Missing);
    ZeroStatePermits(st0.dir, st0.file, t);
    var st1 := HandleMessage(h, st0, p, Conditions(t, t, true, true));
    SuppressedIffWithinPeriod(st1.dir, st1.file, t + HOUR);
  }
}
