/**
  The status snapshot served by `GET /api/status`: a total function from the
  current store to a record of nine display strings. Four channels are passed
  through (with `--` for a missing or empty value), four are exact-text
  comparisons rendered as fixed labels, and `motion` is a composite of the
  vibration, sound and distance channels that never reads the stored `motion`.
 */
module Snapshot {
  import opened JsString
  import opened JsNumber
  import opened Topics
  import opened StateStore

  const Detected: string := "감지됨"
  const NotDetected: string := "없음"
  const Open: string := "열림"
  const Closed: string := "닫힘"
  const Danger: string := "위험"
  const Safe: string := "안전"
  const Placeholder: string := "--"

  /** Distances below this many centimetres count as motion. */
  const DistanceThreshold: real := 50.0

  /** The JSON object of the status reply; `windowMotorState` is its `window_motor_state` key. */
  datatype Status = Status(
    temperature: string,
    humidity: string,
    motion: string,
    window: string,
    sound: string,
    distance: string,
    vibration: string,
    windowMotorState: string,
    danger: string)

  /** The channels the snapshot reads. `motion` is not among them. */
  const ReadChannels: set<string> :=
    {"temperature", "humidity", "window", "sound", "distance", "vibration", "window_motor_state", "danger"}

  /** `store.key === text`: an absent key never equals a string. */
  predicate Is(m: Store, key: string, text: string) {
    Lookup(m, key) == Some(text)
  }

  /** `parseFloat(store.distance || '0')`. */
  function DistanceReading(m: Store): Num {
    ParseFloat(OrElse(Lookup(m, "distance"), "0"))
  }

  predicate MotionDetected(m: Store) {
    Is(m, "vibration", "1") || Is(m, "sound", "1") || LessThan(DistanceReading(m), DistanceThreshold)
  }

  /** The status reply for store `m`. */
  function Compute(m: Store): (s: Status)
    ensures s.motion == Detected || s.motion == NotDetected
    ensures s.vibration == Detected || s.vibration == NotDetected
    ensures s.sound == Detected || s.sound == NotDetected
    ensures s.window == Open || s.window == Closed
    ensures s.danger == Danger || s.danger == Safe
  {
    Status(
      temperature := OrElse(Lookup(m, "temperature"), Placeholder),
      humidity := OrElse(Lookup(m, "humidity"), Placeholder),
      motion := if MotionDetected(m) then Detected else NotDetected,
      window := if Is(m, "window", "open") then Open else Closed,
      sound := if Is(m, "sound", "1") then Detected else NotDetected,
      distance := OrElse(Lookup(m, "distance"), Placeholder),
      vibration := if Is(m, "vibration", "1") then Detected else NotDetected,
      windowMotorState := OrElse(Lookup(m, "window_motor_state"), Placeholder),
      danger := if Is(m, "danger", "true") then Danger else Safe)
  }

  /** A present, non-empty value of `key` in `m`. */
  predicate Reported(m: Store, key: string) {
    key in m && m[key] != ""
  }

  /**
    Temperature, humidity, distance and motor state show the stored text when it
    is present and non-empty, and the placeholder `--` otherwise.
   */
  lemma PassThroughFields(m: Store)
    ensures Reported(m, "temperature") ==> Compute(m).temperature == m["temperature"]
    ensures !Reported(m, "temperature") ==> Compute(m).temperature == Placeholder
    ensures Reported(m, "humidity") ==> Compute(m).humidity == m["humidity"]
    ensures !Reported(m, "humidity") ==> Compute(m).humidity == Placeholder
    ensures Reported(m, "distance") ==> Compute(m).distance == m["distance"]
    ensures !Reported(m, "distance") ==> Compute(m).distance == Placeholder
    ensures Reported(m, "window_motor_state") ==> Compute(m).windowMotorState == m["window_motor_state"]
    ensures !Reported(m, "window_motor_state") ==> Compute(m).windowMotorState == Placeholder
  {
  }

  /**
    Vibration and sound are each detected exactly when their own stored text is
    `"1"`; any other text, and absence, show as not detected.
   */
  lemma DetectionLabels(m: Store)
    ensures Compute(m).vibration == Detected <==> "vibration" in m && m["vibration"] == "1"
    ensures Compute(m).vibration == NotDetected <==> !("vibration" in m && m["vibration"] == "1")
    ensures Compute(m).sound == Detected <==> "sound" in m && m["sound"] == "1"
    ensures Compute(m).sound == NotDetected <==> !("sound" in m && m["sound"] == "1")
  {
  }

  /** The window is open exactly on the text `"open"`; danger is shown exactly on the text `"true"`. */
  lemma WindowAndDangerLabels(m: Store)
    ensures Compute(m).window == Open <==> "window" in m && m["window"] == "open"
    ensures Compute(m).window == Closed <==> !("window" in m && m["window"] == "open")
    ensures Compute(m).danger == Danger <==> "danger" in m && m["danger"] == "true"
    ensures Compute(m).danger == Safe <==> !("danger" in m && m["danger"] == "true")
  {
  }

  /** An absent window or danger reading shows exactly as an explicit negative one. */
  lemma AbsenceIsNegative(m: Store, w: string, d: string)
    requires w != "open" && d != "true"
    ensures Compute(m - {"window"}).window == Compute(m["window" := w]).window == Closed
    ensures Compute(m - {"danger"}).danger == Compute(m["danger" := d]).danger == Safe
  {
  }

  /** A vibration or sound detection is always reported as motion, whatever the distance. */
  lemma MotionFromDetection(m: Store)
    requires Is(m, "vibration", "1") || Is(m, "sound", "1")
    ensures Compute(m).motion == Detected
  {
  }

  /** Without vibration or sound, motion is the parsed distance reading being below 50. */
  lemma MotionFromDistance(m: Store)
    requires !Is(m, "vibration", "1") && !Is(m, "sound", "1")
    requires Reported(m, "distance")
    ensures Compute(m).motion == Detected <==> LessThan(ParseFloat(m["distance"]), 50.0)
  {
  }

  /** A missing or empty distance is read as `'0'`, so it always reports motion. */
  lemma {:induction false} MotionWhenDistanceUnreported(m: Store)
    requires !Reported(m, "distance")
    ensures DistanceReading(m) == Finite(0.0)
    ensures Compute(m).motion == Detected
  {
    assert OrElse(Lookup(m, "distance"), "0") == "0";
    ParseFloatZero();
    assert DistanceReading(m) == Finite(0.0);
    assert MotionDetected(m);
  }

  lemma {:induction false} ParseFloatZero()
    ensures ParseFloat("0") == Finite(0.0)
  {
    assert TrimStart("0") == "0";
    assert LeadingDigits("0") == 1;
    assert "0"[..1] == "0" && "0"[1..] == "";
    assert DigitsValue("0") == 0;
    assert Exponent("") == 0;
  }

  /**
    A distance of decimal digits, optionally followed by a unit, reports motion
    (absent vibration and sound) exactly when its value is below 50.
   */
  lemma {:induction false} MotionFromDistanceDigits(m: Store, digits: string, unit: string)
    requires !Is(m, "vibration", "1") && !Is(m, "sound", "1")
    requires digits != [] && AllDigits(digits)
    requires unit != [] ==> !IsDigit(unit[0]) && unit[0] !in ".eE"
    requires "distance" in m && m["distance"] == digits + unit
    ensures Compute(m).motion == Detected <==> DigitsValue(digits) < 50
  {
    ParseFloatDigits(digits, unit);
  }

  /** A distance reading that does not begin with a number parses to NaN and never reports motion. */
  lemma {:induction false} NonNumericDistanceIsNoMotion(m: Store)
    requires !Is(m, "vibration", "1") && !Is(m, "sound", "1")
    requires Reported(m, "distance") && !LooksNumeric(m["distance"])
    ensures DistanceReading(m) == NaN
    ensures Compute(m).motion == NotDetected
  {
    ParseFloatNaN(m["distance"]);
  }

  /** Channels the snapshot does not read, `motion` among them, have no effect on it. */
  lemma {:induction false} UnreadChannelsIgnored(m: Store, key: string, v: string)
    requires key !in ReadChannels
    ensures Compute(m[key := v]) == Compute(m)
    ensures Compute(m - {key}) == Compute(m)
  {
    SameReadChannels(m, m[key := v]);
    SameReadChannels(m, m - {key});
  }

  /** The snapshot is a function of the eight read channels alone. */
  lemma SameReadChannels(m1: Store, m2: Store)
    requires forall k :: k in ReadChannels ==> Lookup(m1, k) == Lookup(m2, k)
    ensures Compute(m1) == Compute(m2)
  {
    assert Lookup(m1, "distance") == Lookup(m2, "distance");
    assert Lookup(m1, "vibration") == Lookup(m2, "vibration");
    assert Lookup(m1, "sound") == Lookup(m2, "sound");
  }

  /** The stored `motion` channel never changes the motion shown. */
  lemma MotionChannelIgnored(m: Store, v: string)
    ensures Compute(m["motion" := v]).motion == Compute(m).motion
    ensures Compute(m - {"motion"}).motion == Compute(m).motion
  {
    UnreadChannelsIgnored(m, "motion", v);
  }

  /** Before any message arrives: placeholders, negative labels, and motion detected. */
  lemma {:induction false} EmptyStoreSnapshot()
    ensures Compute(map[]) == Status(
      Placeholder, Placeholder, Detected, Closed, NotDetected,
      Placeholder, NotDetected, Placeholder, Safe)
  {
    MotionWhenDistanceUnreported(map[]);
  }

  /**
    Readings filed by the message handler show up in the next snapshot:
    vibration `"1"` is detected, any other vibration text is not, and a window
    reading `"open"` shows as open.
   */
  lemma {:induction false} IngestedReadingsShow(m: Store, v: string, w: string)
    ensures Compute(Ingested(m, Message(SensorTopic("vibration"), v))).vibration
      == if v == "1" then Detected else NotDetected
    ensures Compute(Ingested(m, Message(SensorTopic("window"), w))).window
      == if w == "open" then Open else Closed
  {
    ChannelKeyOfSensorTopic("vibration");
    ChannelKeyOfSensorTopic("window");
  }

  /** Distance 10 alone reports motion; distance 100 alone does not. */
  lemma {:induction false} DistanceExamples()
    ensures Compute(map["distance" := "10"]).motion == Detected
    ensures Compute(map["distance" := "100"]).motion == NotDetected
  {
    assert "10"[..1] == "1" && "1"[..0] == "" && "100"[..2] == "10";
    assert DigitsValue("10") == 10;
    assert DigitsValue("100") == 100;
    assert "10" + "" == "10" && "100" + "" == "100";
    MotionFromDistanceDigits(map["distance" := "10"], "10", "");
    MotionFromDistanceDigits(map["distance" := "100"], "100", "");
  }

  /** A non-numeric distance such as `abc` does not report motion. */
  lemma {:induction false} NonNumericExample()
    ensures Compute(map["distance" := "abc"]).motion == NotDetected
  {
    assert TrimStart("abc") == "abc";
    assert !LooksNumeric("abc");
    NonNumericDistanceIsNoMotion(map["distance" := "abc"]);
  }
}
