# Single-sensor obstacle alert system: alert arbitration and sensor state

A Dafny model of the decision logic of `SingleSensorObstacleSystem`: the system reads
JSON records from an ultrasonic range sensor over a serial link, forwards distances to a
telemetry endpoint at most once per upload interval, sorts camera detections into
left, centre and right zones, and speaks alerts under a single 3-second cooldown that the
range-sensor path and the vision path share.

Layout:

- `wrappers.dfy` (`Wrappers`): `Option` and `Result`; `Err` stands for a Python exception.
- `decimal.dfy` (`Decimal`): the decimal numeral Python writes for an int, with its inverse.
- `json.dfy` (`Json`): decoded JSON values, and Python's comparison and formatting of the numeric ones.
- `zones.dfy` (`Zones`): the zone classifier with the integer cut points `width // 3` and `2 * width // 3`.
- `alerts.dfy` (`Alerts`): detections, the watch list, what qualifies a box, and the two alert wordings.
- `arbiter.dfy` (`Arbiter`): the six state fields plus the speech and upload logs as a `State` value, one function per step (`Ingest`, `SensorCheck`, `VisionPass`, `Frame`) and the lemmas about them.
- `system.dfy` (`ObstacleSystem`): the class `SingleSensorObstacleSystem` with those fields and one method per step. Each method updates the fields in place, in the source's order and with its loop, and is proved to end in the state the matching `Arbiter` function gives.

Modelling choices:

- Clock readings (`time.time()`) are `real` parameters. `process_yolo_detections` reads the clock once, before its loop. `check_sensor_alerts` reads it again later in the same frame, so `Frame` and `RunFrame` take two readings.
- Box coordinates and confidences are `real`. The frame width is a `nat`.
- The speech engine becomes the log `spoken`. The telemetry endpoint becomes the log `uploads`, to which every attempted upload is appended.
- `json.loads` becomes a parameter `parsed: Option<map<string, Value>>`: `None` means it raised. A line cannot be read as anything but an object once it starts with `{`.
- The sensor fields hold whatever JSON value the record carried, so a non-numeric `center` is kept. Python compares bools, ints and floats with `0` and `100`. Comparing any other value raises `TypeError` inside `process_yolo_detections`. Nothing in `run` catches that exception, so the model reports the frame as raised (`Err` / `ok == false`) with the state unchanged.
- The spoken distance is formatted as Python's f-string would: an int as its decimal numeral, `True` as `True`, a float as Python's own text for it. That text is carried as data in `Float(x, repr)`.

Where the design description and the code differ, the model follows the code:

- The design says the sensor path runs first in a frame and then stops. The code runs the vision path first (main.py:184-186), and the sensor check still runs afterwards under the shared cooldown. `SlowFrameSpeaksTwice` shows one frame speaking twice when the second clock reading trails the first by the full cooldown.
- The sensor gate lets an alert through at exactly 3 s (`<` at main.py:100). The vision gate needs more than 3 s (`>` at main.py:144).
- The design says a record missing a field leaves the sample unchanged. In the code, a record with `center` but no `alert` overwrites the distance before the `KeyError` (main.py:66-67).
- `last_upload_time` starts at start-up time (main.py:46). So a record read right at start-up is not uploaded (`TelemetryFromStartup`), although the design's example expects an upload at t = 0.

## Model

| member | source | states |
|---|---|---|
| `ObstacleSystem.SingleSensorObstacleSystem.constructor` | YOLO_model/main.py:39-55 | distance 0, level "CLEAR", alert clock 0, upload clock at start-up time, the activation sentence spoken, nothing uploaded |
| `ObstacleSystem.SingleSensorObstacleSystem.ReadSensorData` | YOLO_model/main.py:59-76 | one pass of the reading loop overwrites the fields one after another and ends in exactly the state `Ingest` gives, partial update included |
| `ObstacleSystem.SingleSensorObstacleSystem.CheckSensorAlerts` | YOLO_model/main.py:98-108 | ends in exactly the state `SensorCheck` gives |
| `ObstacleSystem.SingleSensorObstacleSystem.ProcessYoloDetections` | YOLO_model/main.py:110-151 | the box loop ends in the state `VisionPass` gives, or reports the TypeError with every field as before; it appends at most one sentence |
| `ObstacleSystem.SingleSensorObstacleSystem.RunFrame` | YOLO_model/main.py:176-193 | the vision path and then, unless it raised, the sensor check; ends in the state `Frame` gives, or unchanged when the frame raised |
| `Arbiter.Ingest` | YOLO_model/main.py:57-76 | no-op when not connected, when the line does not start with '{', when it fails to parse, when it has no `sensor_data` object, or when `center` is missing; `center` without `alert` changes only the distance; a full record sets both readings and uploads the new distance exactly when more than the upload interval has passed, then setting the upload clock to now; ingestion never speaks or touches the alert clock |
| `Arbiter.SensorCheck` | YOLO_model/main.py:98-108 | no change while `now - last < 3`, when serial is down, or at "CLEAR"; it changes state exactly when the cooldown has passed (not strictly), serial is up and the level is DANGER or WARNING; it then speaks "Danger ahead!" or "Obstacle detected!" and sets the alert clock to now; readings and upload state are never touched |
| `Arbiter.VisionPassIsFirstQualifying` | YOLO_model/main.py:115-150 | the box loop is equivalent to announcing the first qualifying box when strictly more than the cooldown has passed, and to doing nothing otherwise |
| `Arbiter.VisionPassSpeaksAtMostOnce` | YOLO_model/main.py:144-150 | one call speaks at most one alert, appended to what was spoken before |
| `Arbiter.VisionPassKeepsReadings` | YOLO_model/main.py:117-150 | the vision path never changes the readings, the upload clock or the upload log |
| `Arbiter.VisionAlertNeedsAllFour` | YOLO_model/main.py:125-145 | any vision alert needs `now - last > 3` and a box with confidence > 0.5, in the centre zone, of a watched class |
| `Arbiter.VisionPassUnchangedWhileOpen` | YOLO_model/main.py:144-150 | while the gate is still open mid-loop, no earlier box has alerted |
| `Arbiter.VisionPassErrPersists` | YOLO_model/main.py:146 | a TypeError on one box ends the whole pass with that error |
| `Arbiter.FrameSpeaksAtMostOnce` | YOLO_model/main.py:184-186 | when the two clock readings of a frame are less than the cooldown apart, the frame speaks at most one alert |
| `Arbiter.VisionAlertPreemptsSensor` | YOLO_model/main.py:184-186 | a vision alert silences the same frame's sensor check (even at DANGER) unless the cooldown has passed between the two clock readings |
| `Arbiter.SlowFrameSpeaksTwice` | YOLO_model/main.py:184-186 | with the sensor clock exactly 3 s after the vision clock, one frame speaks the vision sentence and then "Danger ahead!" |
| `Arbiter.FrameRaisesOnNonNumericDistance` | YOLO_model/main.py:144-146 | a frame raises exactly when the vision gate is open, some box qualifies and the stored distance is not a number |
| `Arbiter.SensorAlertSilencesVision` | YOLO_model/main.py:105-144 | after a sensor alert at t1, no vision alert happens at t2 with `t2 - t1 <= 3` |
| `Arbiter.VisionAlertSilencesSensor` | YOLO_model/main.py:100-150 | after a vision alert at t1, no sensor alert happens at t2 with `t2 - t1 < 3` |
| `Arbiter.SensorCooldownTimeline` | YOLO_model/main.py:98-108 | on a simulated clock: alert at t, silence at t + 2.9, alert at t + 3.1 and already at t + 3 |
| `Arbiter.TelemetryFromStartup` | YOLO_model/main.py:46-73 | since the upload clock starts at start-up, records at 0, 0.5 and 1.2 s after start-up upload only the last |
| `Arbiter.TelemetryTimeline` | YOLO_model/main.py:70-73 | with the last upload long past, records at t, t + 0.5 and t + 1.2 upload exactly twice, at t and at t + 1.2 |
| `Arbiter.CenterWithoutAlert` | YOLO_model/main.py:64-75 | a record with `center` and no `alert` keeps the new distance and leaves the level and the upload clock as they were |
| `Zones.Classify` | YOLO_model/main.py:130-138 | left exactly when `center_x < width // 3`, right exactly when `center_x > 2 * width // 3`, centre exactly in between (both ends included) |
| `Zones.CutPointsAreCenter` | YOLO_model/main.py:113-114 | a box centred exactly on either cut point is in the centre zone |
| `Alerts.FirstQualifying` | YOLO_model/main.py:125-145 | the index of the first box with confidence > 0.5, in the centre zone and of a watched class; none exactly when no box is like that |
| `Alerts.SensorAlertText` | YOLO_model/main.py:103-108 | "Danger ahead!" exactly for "DANGER", "Obstacle detected!" exactly for "WARNING", nothing for any other level |
| `Alerts.VisionAlertText` | YOLO_model/main.py:146-149 | "{class} detected at {d} centimeters" when `0 < d < 100`, "{class} detected ahead" otherwise (0 included); TypeError exactly when the distance is not a number |
| `Alerts.NearDistanceIsSpoken` | YOLO_model/main.py:146-147 | for an integer reading in 1..99 the sentence holds a numeral that reads back as the reading, then the unit |
| `Alerts.FarDistanceIsNotSpoken` | YOLO_model/main.py:148-149 | for an integer reading of 0 or less, or 100 or more, no digit follows the class name |
| `Decimal.NatToString` | YOLO_model/main.py:147 | the numeral is non-empty, all digits, and has no leading zero |
| `Decimal.ParseNatToString` | YOLO_model/main.py:147 | reading the numeral of `n` back gives `n` |

## Left out

- The vision model (`self.model(frame)`, `model.names`): it is a foreign library. Each frame's boxes come in as a flat sequence of `(x1, x2, confidence, class name)`, in the order the model's results list them. The vertical coordinates are not used.
- Capture, flipping, drawing boxes and labels, `draw_zones_and_info`, `imshow` and `waitKey`: display I/O, and the 'q' key that ends `run`. `RunFrame` is one iteration of the loop.
- The pyttsx3 engine becomes the `spoken` log. Its exception handler (main.py:95-96) changes no state.
- Opening, reading and closing the serial port, `in_waiting`, and the `time.sleep` delays: hardware I/O. A pass with nothing waiting, or with a line that fails to decode as UTF-8, changes nothing, like a line that does not start with `{`.
- `json.loads`: a library parser, replaced by its outcome as a parameter.
- `requests.get` to ThingSpeak: network I/O, replaced by the `uploads` log. The upload handler swallows every outcome, so the log records each attempt.
- The background thread, and its unsynchronised sharing of `sensor_distance` and `sensor_alert` with the main loop: concurrency. The model is sequential, and each method runs atomically.
- The YOLO model load, the TTS setup, camera opening, `cleanup` and the argv handling in `__main__`: plumbing. The outcome of opening the serial port is the constructor's `serialConnected` argument.
- Python's formatting of floats: the text of a float reading is an input (`Float(x, repr)`), not computed.
