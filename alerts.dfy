/** What may trigger a spoken alert, and what is said. */
module Alerts {
  import opened Wrappers
  import opened Json
  import opened Zones
  import Decimal

  /** One box of a frame as the vision model reports it: horizontal extent in pixels,
      confidence in [0, 1], and the class name the model gives its class id. */
  datatype Detection = Detection(x1: real, x2: real, confidence: real, className: string)

  function CenterX(d: Detection): real {
    (d.x1 + d.x2) / 2.0
  }

  /** The classes worth announcing. */
  const WatchList: set<string> := {"person", "car", "truck", "bicycle"}

  /** Boxes at or below this confidence are ignored. */
  const MinConfidence: real := 0.5

  /** A box that alerts whenever the cooldown allows it. */
  predicate Qualifies(d: Detection, width: nat) {
    d.confidence > MinConfidence && Classify(CenterX(d), width) == Center && d.className in WatchList
  }

  /** The index of the first qualifying box of a frame, if any. */
  function FirstQualifying(dets: seq<Detection>, width: nat): (r: Option<nat>)
    ensures r.Some? ==> r.value < |dets| && Qualifies(dets[r.value], width)
    ensures r.Some? ==> forall k :: 0 <= k < r.value ==> !Qualifies(dets[k], width)
    ensures r.None? <==> forall k :: 0 <= k < |dets| ==> !Qualifies(dets[k], width)
    decreases |dets|
  {
    if dets == [] then None
    else if Qualifies(dets[0], width) then Some(0)
    else match FirstQualifying(dets[1..], width)
      case None => None
      case Some(i) => Some(i + 1)
  }

  /** Appending a box changes the first qualifying one only if there was none. */
  lemma FirstQualifyingSnoc(dets: seq<Detection>, d: Detection, width: nat)
    ensures FirstQualifying(dets + [d], width) ==
      if FirstQualifying(dets, width).Some? then FirstQualifying(dets, width)
      else if Qualifies(d, width) then Some(|dets|)
      else None
  {
    var all := dets + [d];
    var a := FirstQualifying(dets, width);
    var b := FirstQualifying(all, width);
    if a.Some? {
      assert all[a.value] == dets[a.value];
      assert forall k :: 0 <= k < |dets| ==> all[k] == dets[k];
    } else if Qualifies(d, width) {
      assert all[|dets|] == d;
      assert forall k :: 0 <= k < |dets| ==> all[k] == dets[k];
    } else {
      forall k | 0 <= k < |all|
        ensures !Qualifies(all[k], width)
      {
        if k < |dets| {
          assert all[k] == dets[k];
        }
      }
    }
  }

  const DangerText: string := "Danger ahead!"
  const WarningText: string := "Obstacle detected!"

  /** What the range sensor's alert level makes the system say, if anything. */
  function SensorAlertText(level: Value): (r: Option<string>)
    ensures r == Some(DangerText) <==> level == Str("DANGER")
    ensures r == Some(WarningText) <==> level == Str("WARNING")
    ensures r.None? <==> level != Str("DANGER") && level != Str("WARNING")
  {
    if level == Str("DANGER") then Some(DangerText)
    else if level == Str("WARNING") then Some(WarningText)
    else None
  }

  const TypeError: string := "TypeError"

  /** The sentence announcing a watched object ahead. The distance is mentioned when the
      range reading lies strictly between 0 and 100; comparing a reading that is not a
      number with an int raises TypeError. */
  function VisionAlertText(className: string, distance: Value): (r: Result<string>)
    ensures r.Err? <==> !IsNumber(distance)
    ensures distance.Int? && 0 < distance.i < 100 ==>
      r == Ok(className + " detected at " + Decimal.NatToString(distance.i) + " centimeters")
    ensures distance.Int? && (distance.i <= 0 || distance.i >= 100) ==>
      r == Ok(className + " detected ahead")
    ensures distance == Bool(true) ==> r == Ok(className + " detected at True centimeters")
    ensures distance == Bool(false) ==> r == Ok(className + " detected ahead")
    ensures distance.Float? && 0.0 < distance.x < 100.0 ==>
      r == Ok(className + " detected at " + distance.repr + " centimeters")
    ensures distance.Float? && (distance.x <= 0.0 || distance.x >= 100.0) ==>
      r == Ok(className + " detected ahead")
  {
    if !IsNumber(distance) then Err(TypeError)
    else if NumberValue(distance) > 0.0 && NumberValue(distance) < 100.0 then
      assert distance == Bool(true) ==>
        className + " detected at " + Show(distance) + " centimeters" == className + " detected at True centimeters";
      Ok(className + " detected at " + Show(distance) + " centimeters")
    else
      Ok(className + " detected ahead")
  }

  /** A near integer reading is spoken as its numeral followed by the unit, and the
      numeral reads back as the reading. */
  lemma NearDistanceIsSpoken(className: string, n: int)
    requires 0 < n < 100
    ensures var digits := Decimal.NatToString(n);
      && VisionAlertText(className, Int(n)) == Ok(className + " detected at " + digits + " centimeters")
      && Decimal.ParseDigits(digits) == n
  {
    Decimal.ParseNatToString(n);
  }

  /** A far or zero integer reading is not spoken: after the class name the sentence has no digit. */
  lemma FarDistanceIsNotSpoken(className: string, n: int)
    requires n <= 0 || n >= 100
    ensures VisionAlertText(className, Int(n)).Ok?
    ensures var text := VisionAlertText(className, Int(n)).value;
      forall k :: |className| <= k < |text| ==> !Decimal.IsDigit(text[k])
  {
    var text := VisionAlertText(className, Int(n)).value;
    assert text == className + " detected ahead";
    forall k | |className| <= k < |text|
      ensures !Decimal.IsDigit(text[k])
    {
      assert text[k] == " detected ahead"[k - |className|];
    }
  }
}
