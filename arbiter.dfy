/** The sensor and alert state of the obstacle system as a value, and one function per
    step the system takes on it. The class in ObstacleSystem is proved to follow these. */
module Arbiter {
  import opened Wrappers
  import opened Json
  import opened Zones
  import opened Alerts
  import Decimal

  /** Seconds that must pass after an alert before the next one. */
  const AlertCooldown: real := 3.0
  /** Seconds that must pass after a telemetry upload before the next one. */
  const UploadInterval: real := 1.0
  /** Spoken once, when the system starts. */
  const ActivationText: string := "Single sensor obstacle alert system activated"

  /** The mutable state: the latest range reading and alert level exactly as decoded, the
      time of the last alert and of the last upload attempt, and the two output logs
      (everything spoken, and every distance sent to the telemetry endpoint, in order). */
  datatype State = State(
    distance: Value,
    alert: Value,
    lastAlertTime: real,
    lastUploadTime: real,
    spoken: seq<string>,
    uploads: seq<Value>)

  /** The state right after start-up at clock `startTime`. */
  function Initial(startTime: real): State {
    State(Int(0), Str("CLEAR"), 0.0, startTime, [ActivationText], [])
  }

  // ---------------------------------------------------------------------------
  // Range reader and telemetry throttle

  predicate StartsWithBrace(line: string) {
    |line| > 0 && line[0] == '{'
  }

  /** The `sensor_data` object of a line, when the line starts with '{', parses, and has a
      `sensor_data` entry that is an object (indexing any other value raises TypeError). */
  function SensorObject(line: string, parsed: Option<map<string, Value>>): Option<map<string, Value>> {
    if StartsWithBrace(line) && parsed.Some? && "sensor_data" in parsed.value
       && parsed.value["sensor_data"].Obj?
    then Some(parsed.value["sensor_data"].fields)
    else None
  }

  /** A record the loop accepts in full: a `sensor_data` object with `center` and `alert`. */
  predicate CompleteRecord(line: string, parsed: Option<map<string, Value>>) {
    var obj := SensorObject(line, parsed);
    obj.Some? && "center" in obj.value && "alert" in obj.value
  }

  /** Forward the current distance when more than the upload interval has passed since the
      last attempt; the attempt time is recorded whatever the endpoint answers. */
  function Throttle(s: State, now: real): State {
    if now - s.lastUploadTime > UploadInterval then
      s.(uploads := s.uploads + [s.distance], lastUploadTime := now)
    else s
  }

  /** One pass of the serial reading loop over one line, `parsed` being what `json.loads`
      made of it (None: it raised). Any exception ends the pass, keeping the fields
      written before it. */
  function Ingest(s: State, connected: bool, line: string, parsed: Option<map<string, Value>>, now: real): (r: State)
    // ingestion never speaks and never touches the alert clock
    ensures r.lastAlertTime == s.lastAlertTime && r.spoken == s.spoken
    // a line that is not a sensor record changes nothing
    ensures !connected || SensorObject(line, parsed).None? ==> r == s
    ensures connected && SensorObject(line, parsed).Some? && "center" !in SensorObject(line, parsed).value ==> r == s
    // `center` without `alert`: only the distance is overwritten
    ensures connected && SensorObject(line, parsed).Some? && "center" in SensorObject(line, parsed).value
            && "alert" !in SensorObject(line, parsed).value ==>
      r == s.(distance := SensorObject(line, parsed).value["center"])
    // a complete record replaces both readings, and is uploaded only after a strict gap
    ensures connected && CompleteRecord(line, parsed) ==>
      var obj := SensorObject(line, parsed).value;
      && r.distance == obj["center"] && r.alert == obj["alert"]
      && (now - s.lastUploadTime > UploadInterval <==> r.uploads == s.uploads + [obj["center"]])
      && (now - s.lastUploadTime > UploadInterval ==> r.lastUploadTime == now)
      && (now - s.lastUploadTime <= UploadInterval ==> r.uploads == s.uploads && r.lastUploadTime == s.lastUploadTime)
  {
    if !connected || !StartsWithBrace(line) then s
    else match parsed
      case None => s
      case Some(data) =>
        if "sensor_data" !in data then s
        else match data["sensor_data"]
          case Obj(record) =>
            if "center" !in record then s
            else
              var s1 := s.(distance := record["center"]);
              if "alert" !in record then s1
              else Throttle(s1.(alert := record["alert"]), now)
          case _ => s
  }

  // ---------------------------------------------------------------------------
  // Alert arbiter: range-sensor path

  /** `check_sensor_alerts`: speak the alert level's sentence unless an alert was given
      less than the cooldown ago, the serial link is down, or the level is not an alert. */
  function SensorCheck(s: State, connected: bool, now: real): (r: State)
    ensures r.distance == s.distance && r.alert == s.alert
    ensures r.lastUploadTime == s.lastUploadTime && r.uploads == s.uploads
    ensures now - s.lastAlertTime < AlertCooldown || !connected || s.alert == Str("CLEAR") ==> r == s
    ensures r != s <==>
      now - s.lastAlertTime >= AlertCooldown && connected && (s.alert == Str("DANGER") || s.alert == Str("WARNING"))
    ensures r != s ==> r.lastAlertTime == now
    ensures r != s && s.alert == Str("DANGER") ==> r.spoken == s.spoken + [DangerText]
    ensures r != s && s.alert == Str("WARNING") ==> r.spoken == s.spoken + [WarningText]
  {
    if now - s.lastAlertTime < AlertCooldown then s
    else if !connected then s
    else match SensorAlertText(s.alert)
      case None => s
      case Some(text) => s.(spoken := s.spoken + [text], lastAlertTime := now)
  }

  // ---------------------------------------------------------------------------
  // Alert arbiter: vision path

  /** Announce a watched object; raises when the range reading cannot be compared. */
  function VisionAlert(s: State, className: string, now: real): Result<State> {
    match VisionAlertText(className, s.distance)
    case Err(e) => Err(e)
    case Ok(text) => Ok(s.(spoken := s.spoken + [text], lastAlertTime := now))
  }

  /** The body of the box loop of `process_yolo_detections` for one box, with the frame's
      clock `now` read once before the loop. */
  function VisionBox(s: State, width: nat, d: Detection, now: real): Result<State> {
    if d.confidence > MinConfidence then
      var zone := Classify(CenterX(d), width);
      if now - s.lastAlertTime > AlertCooldown then
        if zone == Center && d.className in WatchList then VisionAlert(s, d.className, now)
        else Ok(s)
      else Ok(s)
    else Ok(s)
  }

  /** The box loop over a whole frame, in the order the model returns the boxes; the first
      exception ends it. */
  function VisionPass(s: State, width: nat, dets: seq<Detection>, now: real): Result<State>
    decreases |dets|
  {
    if dets == [] then Ok(s)
    else match VisionPass(s, width, dets[..|dets| - 1], now)
      case Err(e) => Err(e)
      case Ok(s1) => VisionBox(s1, width, dets[|dets| - 1], now)
  }

  /** The box loop does what a single decision would: if the cooldown has run out strictly
      and some box qualifies, announce the FIRST qualifying box (or raise); otherwise do nothing. */
  lemma {:induction false} VisionPassIsFirstQualifying(s: State, width: nat, dets: seq<Detection>, now: real)
    ensures VisionPass(s, width, dets, now) ==
      if now - s.lastAlertTime > AlertCooldown && FirstQualifying(dets, width).Some?
      then VisionAlert(s, dets[FirstQualifying(dets, width).value].className, now)
      else Ok(s)
    decreases |dets|
  {
    if dets != [] {
      var prefix, last := dets[..|dets| - 1], dets[|dets| - 1];
      assert dets == prefix + [last];
      VisionPassIsFirstQualifying(s, width, prefix, now);
      FirstQualifyingSnoc(prefix, last, width);
      var first := FirstQualifying(prefix, width);
      if now - s.lastAlertTime > AlertCooldown && first.Some? {
        assert dets[first.value] == prefix[first.value];
      }
    }
  }

  /** One frame never speaks more than one vision alert, and what it speaks is appended. */
  lemma VisionPassSpeaksAtMostOnce(s: State, width: nat, dets: seq<Detection>, now: real)
    requires VisionPass(s, width, dets, now).Ok?
    ensures var r := VisionPass(s, width, dets, now).value;
      s.spoken <= r.spoken && |r.spoken| <= |s.spoken| + 1
  {
    VisionPassIsFirstQualifying(s, width, dets, now);
  }

  /** The vision path changes nothing but the spoken log and the alert clock. */
  lemma VisionPassKeepsReadings(s: State, width: nat, dets: seq<Detection>, now: real)
    requires VisionPass(s, width, dets, now).Ok?
    ensures var r := VisionPass(s, width, dets, now).value;
      r.distance == s.distance && r.alert == s.alert
      && r.lastUploadTime == s.lastUploadTime && r.uploads == s.uploads
  {
    VisionPassIsFirstQualifying(s, width, dets, now);
  }

  /** A vision alert needs confidence above 0.5, the centre zone, a watched class, and
      strictly more than the cooldown since the last alert. */
  lemma VisionAlertNeedsAllFour(s: State, width: nat, dets: seq<Detection>, now: real)
    requires VisionPass(s, width, dets, now) != Ok(s)
    ensures now - s.lastAlertTime > AlertCooldown
    ensures exists k :: (0 <= k < |dets| && dets[k].confidence > MinConfidence
      && Classify(CenterX(dets[k]), width) == Center && dets[k].className in WatchList)
  {
    VisionPassIsFirstQualifying(s, width, dets, now);
    var k := FirstQualifying(dets, width).value;
    assert Qualifies(dets[k], width);
  }

  /** While the alert clock is still open in the middle of the loop, no box has alerted yet. */
  lemma VisionPassUnchangedWhileOpen(s: State, width: nat, dets: seq<Detection>, now: real, cur: State)
    requires VisionPass(s, width, dets, now) == Ok(cur)
    requires now - cur.lastAlertTime > AlertCooldown
    ensures cur == s
  {
    VisionPassIsFirstQualifying(s, width, dets, now);
  }

  /** An exception part-way through the box list ends the whole pass with that exception. */
  lemma {:induction false} VisionPassErrPersists(s: State, width: nat, dets: seq<Detection>, now: real, i: nat)
    requires i <= |dets|
    requires VisionPass(s, width, dets[..i], now).Err?
    ensures VisionPass(s, width, dets, now).Err?
    decreases |dets| - i
  {
    if i < |dets| {
      assert dets[..i + 1][..i] == dets[..i];
      VisionPassErrPersists(s, width, dets, now, i + 1);
    } else {
      assert dets[..i] == dets;
    }
  }

  // ---------------------------------------------------------------------------
  // One iteration of the main loop

  /** `run` for one frame: the vision path at clock `visionTime`, then (unless it raised)
      the sensor path at the later clock `sensorTime`. */
  function Frame(s: State, connected: bool, width: nat, dets: seq<Detection>, visionTime: real, sensorTime: real): Result<State> {
    match VisionPass(s, width, dets, visionTime)
    case Err(e) => Err(e)
    case Ok(s1) => Ok(SensorCheck(s1, connected, sensorTime))
  }

  /** When the sensor check follows the vision pass by less than the cooldown, a frame
      speaks at most one alert: a vision alert suppresses even a DANGER reading. */
  lemma FrameSpeaksAtMostOnce(s: State, connected: bool, width: nat, dets: seq<Detection>, visionTime: real, sensorTime: real)
    requires sensorTime - visionTime < AlertCooldown
    requires Frame(s, connected, width, dets, visionTime, sensorTime).Ok?
    ensures var r := Frame(s, connected, width, dets, visionTime, sensorTime).value;
      s.spoken <= r.spoken && |r.spoken| <= |s.spoken| + 1
  {
    VisionPassIsFirstQualifying(s, width, dets, visionTime);
  }

  /** The vision path runs first: when it alerts, the sensor check of the same frame is
      silent unless at least the cooldown has passed between the two clock readings. */
  lemma VisionAlertPreemptsSensor(s: State, connected: bool, width: nat, dets: seq<Detection>, visionTime: real, sensorTime: real)
    requires sensorTime - visionTime < AlertCooldown
    requires VisionPass(s, width, dets, visionTime).Ok?
    requires VisionPass(s, width, dets, visionTime).value != s
    ensures Frame(s, connected, width, dets, visionTime, sensorTime) == VisionPass(s, width, dets, visionTime)
  {
    VisionPassIsFirstQualifying(s, width, dets, visionTime);
  }

  /** Speech blocks the main loop, so the sensor check's clock can trail the vision
      clock by the full cooldown; then one frame speaks twice, vision first. */
  lemma SlowFrameSpeaksTwice()
    ensures var s := State(Int(50), Str("DANGER"), 0.0, 0.0, [], []);
      var dets := [Detection(100.0, 200.0, 0.9, "person")];
      Frame(s, true, 300, dets, 10.0, 13.0).Ok?
      && Frame(s, true, 300, dets, 10.0, 13.0).value.spoken == ["person detected at 50 centimeters", DangerText]
  {
    var s := State(Int(50), Str("DANGER"), 0.0, 0.0, [], []);
    var dets := [Detection(100.0, 200.0, 0.9, "person")];
    assert Qualifies(dets[0], 300);
    assert dets[..0] == [];
    assert VisionPass(s, 300, dets, 10.0) == VisionBox(s, 300, dets[0], 10.0);
    assert Decimal.NatToString(50) == "50";
    assert "person" + " detected at " + "50" + " centimeters" == "person detected at 50 centimeters";
    assert VisionAlertText("person", Int(50)) == Ok("person detected at 50 centimeters");
    var s1 := s.(spoken := ["person detected at 50 centimeters"], lastAlertTime := 10.0);
    assert s.spoken + ["person detected at 50 centimeters"] == s1.spoken;
    assert VisionAlert(s, "person", 10.0) == Ok(s1);
    assert VisionPass(s, 300, dets, 10.0) == Ok(s1);
  }

  /** A range reading that is not a number makes a frame raise exactly when a qualifying
      box reaches the distance test, i.e. when the cooldown is open. */
  lemma FrameRaisesOnNonNumericDistance(s: State, connected: bool, width: nat, dets: seq<Detection>, visionTime: real, sensorTime: real)
    ensures Frame(s, connected, width, dets, visionTime, sensorTime).Err? <==>
      visionTime - s.lastAlertTime > AlertCooldown && FirstQualifying(dets, width).Some? && !IsNumber(s.distance)
  {
    VisionPassIsFirstQualifying(s, width, dets, visionTime);
  }

  // ---------------------------------------------------------------------------
  // Timing across calls

  /** One shared cooldown: after a sensor alert, no vision alert follows within the cooldown. */
  lemma SensorAlertSilencesVision(s: State, connected: bool, t1: real, width: nat, dets: seq<Detection>, t2: real)
    requires SensorCheck(s, connected, t1) != s
    requires t2 - t1 <= AlertCooldown
    ensures VisionPass(SensorCheck(s, connected, t1), width, dets, t2) == Ok(SensorCheck(s, connected, t1))
  {
    VisionPassIsFirstQualifying(SensorCheck(s, connected, t1), width, dets, t2);
  }

  /** One shared cooldown: after a vision alert, no sensor alert follows within the cooldown. */
  lemma VisionAlertSilencesSensor(s: State, width: nat, dets: seq<Detection>, t1: real, connected: bool, t2: real)
    requires VisionPass(s, width, dets, t1).Ok?
    requires VisionPass(s, width, dets, t1).value != s
    requires t2 - t1 < AlertCooldown
    ensures var r := VisionPass(s, width, dets, t1).value;
      SensorCheck(r, connected, t2) == r
  {
    VisionPassIsFirstQualifying(s, width, dets, t1);
  }

  /** The cooldown seen on a simulated clock: an alert at t, silence at t + 2.9, an alert
      again at t + 3.1 (and already at exactly t + 3, the sensor gate being `<`). */
  lemma SensorCooldownTimeline(s: State, t: real)
    requires s.alert == Str("DANGER")
    requires t - s.lastAlertTime >= AlertCooldown
    ensures var a := SensorCheck(s, true, t);
      var b := SensorCheck(a, true, t + 2.9);
      var c := SensorCheck(b, true, t + 3.1);
      && a.spoken == s.spoken + [DangerText]
      && b == a
      && c.spoken == s.spoken + [DangerText, DangerText]
      && SensorCheck(a, true, t + 3.0).spoken == c.spoken
  {
  }

  /** The upload clock starts at start-up, so a record read at start-up is not uploaded;
      of records at 0, 0.5 and 1.2 seconds only the last one is. */
  lemma TelemetryFromStartup(t0: real, d1: Value, d2: Value, d3: Value)
    ensures var p1 := Some(map["sensor_data" := Obj(map["center" := d1, "alert" := Str("CLEAR")])]);
      var p2 := Some(map["sensor_data" := Obj(map["center" := d2, "alert" := Str("CLEAR")])]);
      var p3 := Some(map["sensor_data" := Obj(map["center" := d3, "alert" := Str("CLEAR")])]);
      var a := Ingest(Initial(t0), true, "{", p1, t0);
      var b := Ingest(a, true, "{", p2, t0 + 0.5);
      var c := Ingest(b, true, "{", p3, t0 + 1.2);
      c.uploads == [d3] && c.lastUploadTime == t0 + 1.2
  {
  }

  /** With the last upload long past, records at t, t + 0.5 and t + 1.2 cause exactly two
      uploads, at t and at t + 1.2. */
  lemma TelemetryTimeline(s: State, t: real, d1: Value, d2: Value, d3: Value)
    requires t - s.lastUploadTime > UploadInterval
    ensures var p1 := Some(map["sensor_data" := Obj(map["center" := d1, "alert" := Str("CLEAR")])]);
      var p2 := Some(map["sensor_data" := Obj(map["center" := d2, "alert" := Str("CLEAR")])]);
      var p3 := Some(map["sensor_data" := Obj(map["center" := d3, "alert" := Str("CLEAR")])]);
      var a := Ingest(s, true, "{", p1, t);
      var b := Ingest(a, true, "{", p2, t + 0.5);
      var c := Ingest(b, true, "{", p3, t + 1.2);
      c.uploads == s.uploads + [d1, d3] && c.lastUploadTime == t + 1.2
  {
  }

  /** A record with a distance but no alert level raises after the distance is written:
      the new distance stays, the level and the upload clock are as they were. */
  lemma CenterWithoutAlert(s: State, line: string, v: Value, now: real)
    requires StartsWithBrace(line)
    ensures Ingest(s, true, line, Some(map["sensor_data" := Obj(map["center" := v])]), now)
      == s.(distance := v)
  {
  }
}
