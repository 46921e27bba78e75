/** `SingleSensorObstacleSystem` with its hardware taken out: the fields the sensor thread
    and the main loop update, and one method per step, each proved to follow the step
    function of the same name in Arbiter. Clock readings are arguments. */
module ObstacleSystem {
  import opened Wrappers
  import opened Json
  import opened Zones
  import opened Alerts
  import opened Arbiter

  class SingleSensorObstacleSystem {
    /** Whether the serial port opened at start-up; never changes afterwards. */
    const serialConnected: bool
    var sensorDistance: Value
    var sensorAlert: Value
    var lastAlertTime: real
    const alertCooldown: real := AlertCooldown
    var lastUploadTime: real
    const uploadInterval: real := UploadInterval
    /** Every sentence handed to the speech engine, in order. */
    var spoken: seq<string>
    /** Every distance sent to the telemetry endpoint, in order. */
    var uploads: seq<Value>

    function Snapshot(): State
      reads this
    {
      State(sensorDistance, sensorAlert, lastAlertTime, lastUploadTime, spoken, uploads)
    }

    /** Start-up at clock `startTime`: the sensor fields get their defaults, the upload
        clock starts now, and the activation sentence is spoken. */
    constructor (serialConnected: bool, startTime: real)
      ensures this.serialConnected == serialConnected
      ensures Snapshot() == Initial(startTime)
    {
      this.serialConnected := serialConnected;
      sensorDistance := Int(0);
      sensorAlert := Str("CLEAR");
      lastAlertTime := 0.0;
      lastUploadTime := startTime;
      spoken := [ActivationText];
      uploads := [];
    }

    /** One pass of `read_sensor_data` over a line already read and stripped, with
        `parsed` the outcome of `json.loads` on it. The fields are overwritten one after
        the other, so a record that raises part-way keeps the fields written before. */
    method ReadSensorData(line: string, parsed: Option<map<string, Value>>, now: real)
      modifies this
      ensures Snapshot() == Ingest(old(Snapshot()), serialConnected, line, parsed, now)
    {
      if !serialConnected || !StartsWithBrace(line) || parsed.None? {
        return;
      }
      var data := parsed.value;
      if "sensor_data" !in data || !data["sensor_data"].Obj? {
        return;
      }
      var record := data["sensor_data"].fields;
      if "center" !in record {
        return;
      }
      sensorDistance := record["center"];
      if "alert" !in record {
        return;
      }
      sensorAlert := record["alert"];
      if now - lastUploadTime > uploadInterval {
        uploads := uploads + [sensorDistance];
        lastUploadTime := now;
      }
    }

    /** `check_sensor_alerts` with the clock reading `now`. */
    method CheckSensorAlerts(now: real)
      modifies this
      ensures Snapshot() == SensorCheck(old(Snapshot()), serialConnected, now)
    {
      if now - lastAlertTime < alertCooldown {
        return;
      }
      if serialConnected {
        if sensorAlert == Str("DANGER") {
          spoken := spoken + [DangerText];
          lastAlertTime := now;
        } else if sensorAlert == Str("WARNING") {
          spoken := spoken + [WarningText];
          lastAlertTime := now;
        }
      }
    }

    /** The zone and alert logic of `process_yolo_detections` over the boxes of one frame
        `width` pixels wide, with the clock read once as `now`. Returns false when the
        distance test raised; the fields are then as they were before the call. */
    method ProcessYoloDetections(width: nat, dets: seq<Detection>, now: real) returns (ok: bool)
      modifies this
      ensures ok == VisionPass(old(Snapshot()), width, dets, now).Ok?
      ensures ok ==> Snapshot() == VisionPass(old(Snapshot()), width, dets, now).value
      ensures !ok ==> Snapshot() == old(Snapshot())
      ensures old(spoken) <= spoken && |spoken| <= |old(spoken)| + 1
    {
      ghost var s0 := Snapshot();
      var leftZone := LeftCut(width);
      var rightZone := RightCut(width);
      var i := 0;
      while i < |dets|
        invariant 0 <= i <= |dets|
        invariant VisionPass(s0, width, dets[..i], now) == Ok(Snapshot())
      {
        var d := dets[i];
        assert dets[..i + 1][..i] == dets[..i];
        if d.confidence > MinConfidence {
          var centerX := (d.x1 + d.x2) / 2.0;
          var zone := if centerX < leftZone as real then Left
                      else if centerX > rightZone as real then Right
                      else Center;
          assert zone == Classify(CenterX(d), width);
          if now - lastAlertTime > alertCooldown && zone == Center && d.className in WatchList {
            if !IsNumber(sensorDistance) {
              VisionPassUnchangedWhileOpen(s0, width, dets[..i], now, Snapshot());
              VisionPassErrPersists(s0, width, dets, now, i + 1);
              return false;
            }
            var text;
            if 0.0 < NumberValue(sensorDistance) < 100.0 {
              text := d.className + " detected at " + Show(sensorDistance) + " centimeters";
            } else {
              text := d.className + " detected ahead";
            }
            spoken := spoken + [text];
            lastAlertTime := now;
          }
        }
        i := i + 1;
      }
      assert dets[..i] == dets;
      VisionPassSpeaksAtMostOnce(s0, width, dets, now);
      return true;
    }

    /** One iteration of `run` on a frame whose boxes are `dets`: the vision path at clock
        `visionTime`, then the sensor path at the later reading `sensorTime`. Returns false
        when the frame raised, which ends the main loop. */
    method RunFrame(width: nat, dets: seq<Detection>, visionTime: real, sensorTime: real) returns (ok: bool)
      modifies this
      ensures ok == Frame(old(Snapshot()), serialConnected, width, dets, visionTime, sensorTime).Ok?
      ensures ok ==> Snapshot() == Frame(old(Snapshot()), serialConnected, width, dets, visionTime, sensorTime).value
      ensures !ok ==> Snapshot() == old(Snapshot())
    {
      ok := ProcessYoloDetections(width, dets, visionTime);
      if ok {
        CheckSensorAlerts(sensorTime);
      }
    }
  }
}
