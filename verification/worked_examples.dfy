/**
 * Worked examples of the callback on concrete payloads: the documented
 * reading from device B0:A7:32:DB:61:18, the same reading with a string
 * value or an unparsable date, a repeated measurement type, an empty
 * reading, and the measurement checks on `"35"` and `0`.
 */
module Examples {
  import opened Wrappers
  import opened JsValues
  import opened Errors
  import opened SensorDto
  import opened Ingest

  const ExampleUid: string := "B0:A7:32:DB:61:18"
  const ExampleAt: string := "2024-12-07T18:17:07+0100"

  /** A JSON item `{"type": kind, "value": value, "unit": unit}`. */
  function Item(kind: string, value: JsValue, unit: string): JsValue {
    JsObject(map["type" := JsString(kind), "value" := value, "unit" := JsString(unit)])
  }

  /** A JSON reading `{"uid": uid, "at": at, "data": data}`. */
  function Reading(uid: JsValue, at: JsValue, data: seq<JsValue>): JsValue {
    JsObject(map["uid" := uid, "at" := at, "data" := JsArray(data)])
  }

  /** A reading from the example device with the given `at` and `data`. */
  function Payload(at: string, data: seq<JsValue>): JsValue {
    Reading(JsString(ExampleUid), JsString(at), data)
  }

  /** The documented reading: humidity 35 % and temperature 25.8 C. */
  function ExampleData(humidity: JsValue): seq<JsValue> {
    [Item("humidity", humidity, "%"), Item("temperature", JsNumber(25.8), "C")]
  }

  /** Constructing a measurement from an item copies its three fields. */
  lemma CopyOfItem(kind: string, value: JsValue, unit: string)
    ensures CopyOf(Item(kind, value, unit)) == SensorMeasurement(JsString(kind), value, JsString(unit))
  {
    var props := Item(kind, value, unit).props;
    assert "type" in props && props["type"] == JsString(kind);
    assert "value" in props && props["value"] == value;
    assert "unit" in props && props["unit"] == JsString(unit);
  }

  /** The three fields of an example payload. */
  lemma PayloadProps(at: string, data: seq<JsValue>)
    ensures Prop(Payload(at, data), "uid") == JsString(ExampleUid)
    ensures Prop(Payload(at, data), "at") == JsString(at)
    ensures Prop(Payload(at, data), "data") == JsArray(data)
  {
    var props := Payload(at, data).props;
    assert "uid" in props && props["uid"] == JsString(ExampleUid);
    assert "at" in props && props["at"] == JsString(at);
    assert "data" in props && props["data"] == JsArray(data);
  }

  /** A payload with two item objects passes the shape check and becomes two measurements. */
  lemma BuildTwo(parseDate: DateParser, at: string, x0: JsValue, x1: JsValue)
    requires at != "" && x0.JsObject? && x1.JsObject?
    ensures CheckShape(Payload(at, [x0, x1])) == Success(())
    ensures NewSensorData(parseDate, Payload(at, [x0, x1])) ==
      Success(SensorData(JsString(ExampleUid), parseDate(JsString(at)), [CopyOf(x0), CopyOf(x1)]))
  {
    PayloadProps(at, [x0, x1]);
    var r := NewSensorData(parseDate, Payload(at, [x0, x1]));
    assert r.Success?;
    assert |r.value.data| == 2;
    assert r.value.data == [CopyOf(x0), CopyOf(x1)];
    assert r.value.uid == JsString(ExampleUid);
    assert r.value.at == parseDate(JsString(at));
  }

  /** A message whose reading is built, validated and turned into a point is written and acknowledged. */
  lemma Accepts(host: Host, s: Sink, message: Bytes, v: JsValue, d: SensorData, p: Point)
    requires host.parse(message) == Some(v)
    requires CheckShape(v).Success? && NewSensorData(host.parseDate, v) == Success(d)
    requires Validate(d).Success? && BuildPoint(host.numberToString, d) == Success(p)
    requires Stringable(d.uid)
    ensures Handle(host, s, message) == Sink(s.written + [p], s.log + [Acknowledged(d.uid)])
  {
  }

  /** The fields of two measurements, set in order. */
  lemma TwoFields(fmt: Num -> string, ms: seq<SensorMeasurement>)
    requires |ms| == 2 && Fieldable(ms)
    ensures Fields(fmt, ms) == map[FieldKey(fmt, ms[0]) := ms[0].value.n][FieldKey(fmt, ms[1]) := ms[1].value.n]
  {
    assert ms[..1][..0] == [];
    assert Fields(fmt, ms[..1]) == map[FieldKey(fmt, ms[0]) := ms[0].value.n];
  }

  /** A payload of two valid items with string types is written with their two fields, in order. */
  lemma AcceptsTwo(host: Host, s: Sink, message: Bytes, t: Instant,
                   k0: string, n0: Num, u0: string, k1: string, n1: Num, u1: string)
    requires k0 != "" && u0 != "" && k1 != "" && u1 != ""
    requires host.parse(message) == Some(Payload(ExampleAt, [Item(k0, JsNumber(n0), u0), Item(k1, JsNumber(n1), u1)]))
    requires host.parseDate(JsString(ExampleAt)) == Some(t)
    ensures Handle(host, s, message) ==
      Sink(s.written + [Point(SeriesName, map[UidTag := JsString(ExampleUid)], t, map[k0 := n0][k1 := n1])],
           s.log + [Acknowledged(JsString(ExampleUid))])
  {
    var v := host.parse(message).value;
    BuildTwo(host.parseDate, ExampleAt, Item(k0, JsNumber(n0), u0), Item(k1, JsNumber(n1), u1));
    CopyOfItem(k0, JsNumber(n0), u0);
    CopyOfItem(k1, JsNumber(n1), u1);
    var ms := [SensorMeasurement(JsString(k0), JsNumber(n0), JsString(u0)),
               SensorMeasurement(JsString(k1), JsNumber(n1), JsString(u1))];
    var d := SensorData(JsString(ExampleUid), Some(t), ms);
    assert ValidMeasurement(ms[0]) && ValidMeasurement(ms[1]);
    assert AllValid(ms);
    assert Truthy(d.uid) && d.at.Some?;
    assert Validate(d).Success?;
    TwoFields(host.numberToString, ms);
    var p := Point(SeriesName, map[UidTag := JsString(ExampleUid)], t, map[k0 := n0][k1 := n1]);
    assert BuildPoint(host.numberToString, d) == Success(p);
    Accepts(host, s, message, v, d, p);
  }

  /** The documented reading is written as one point with two fields and acknowledged. */
  lemma ExampleReadingWritten(host: Host, s: Sink, message: Bytes, t: Instant)
    requires host.parse(message) == Some(Payload(ExampleAt, ExampleData(JsNumber(35.0))))
    requires host.parseDate(JsString(ExampleAt)) == Some(t)
    ensures Handle(host, s, message) ==
      Sink(s.written + [Point(SeriesName, map[UidTag := JsString(ExampleUid)], t,
                              map["humidity" := 35.0, "temperature" := 25.8])],
           s.log + [Acknowledged(JsString(ExampleUid))])
  {
    AcceptsTwo(host, s, message, t, "humidity", 35.0, "%", "temperature", 25.8, "C");
  }

  /** The same reading with the string value `"35"` is rejected and nothing is written. */
  lemma ExampleStringValueRejected(host: Host, s: Sink, message: Bytes)
    requires host.parse(message) == Some(Payload(ExampleAt, ExampleData(JsString("35"))))
    requires host.parseDate(JsString(ExampleAt)).Some?
    ensures Handle(host, s, message) == Sink(s.written, s.log + [Rejected(ValueNotNumber)])
  {
    var x0 := Item("humidity", JsString("35"), "%");
    var x1 := Item("temperature", JsNumber(25.8), "C");
    BuildTwo(host.parseDate, ExampleAt, x0, x1);
    CopyOfItem("humidity", JsString("35"), "%");
    var ms := [CopyOf(x0), CopyOf(x1)];
    assert FirstInvalid(ms, 0);
    ValidateEachReportsFirst(ms, 0);
  }

  /** The same reading with `"at": "not-a-date"` is rejected as an invalid timestamp. */
  lemma ExampleBadDateRejected(host: Host, s: Sink, message: Bytes)
    requires host.parse(message) == Some(Payload("not-a-date", ExampleData(JsNumber(35.0))))
    requires host.parseDate(JsString("not-a-date")).None?
    ensures Handle(host, s, message) == Sink(s.written, s.log + [Rejected(InvalidTimestamp)])
  {
    BuildTwo(host.parseDate, "not-a-date", Item("humidity", JsNumber(35.0), "%"), Item("temperature", JsNumber(25.8), "C"));
  }

  /** Two temperatures in one reading: the point keeps the later one. */
  lemma RepeatedTypeKeepsLater(host: Host, s: Sink, message: Bytes, t: Instant)
    requires host.parse(message) ==
      Some(Payload(ExampleAt, [Item("temperature", JsNumber(20.0), "C"), Item("temperature", JsNumber(21.5), "C")]))
    requires host.parseDate(JsString(ExampleAt)) == Some(t)
    ensures Handle(host, s, message).written ==
      s.written + [Point(SeriesName, map[UidTag := JsString(ExampleUid)], t, map["temperature" := 21.5])]
  {
    AcceptsTwo(host, s, message, t, "temperature", 20.0, "C", "temperature", 21.5, "C");
    assert map["temperature" := 20.0]["temperature" := 21.5] == map["temperature" := 21.5];
  }

  /** A reading with an empty `data` array is written as a point without fields. */
  lemma EmptyDataWritten(host: Host, s: Sink, message: Bytes, t: Instant)
    requires host.parse(message) == Some(Payload(ExampleAt, []))
    requires host.parseDate(JsString(ExampleAt)) == Some(t)
    ensures Handle(host, s, message).written ==
      s.written + [Point(SeriesName, map[UidTag := JsString(ExampleUid)], t, map[])]
  {
    var v := host.parse(message).value;
    PayloadProps(ExampleAt, []);
    assert CheckShape(v) == Success(());
    assert NewSensorData(host.parseDate, v) == Success(SensorData(JsString(ExampleUid), Some(t), []));
  }

  /**
   * The value check is `typeof`, not truthiness: the string "35" fails it,
   * the number 0 passes it.
   */
  lemma ValueCheckIsTypeof()
    ensures ValidateMeasurement(SensorMeasurement(JsString("humidity"), JsString("35"), JsString("%"))) == Failure(ValueNotNumber)
    ensures ValidateMeasurement(SensorMeasurement(JsString("soil-moisture"), JsNumber(0.0), JsString("%"))) == Success(())
  {
  }

  /**
   * The payload `{"uid": "u", "at": {"toString": 0}, "data": [null]}`:
   * `new Date(at)` throws before the null item is read, so the conversion
   * error is logged and nothing is written.
   */
  lemma ToStringAtRejected(host: Host, s: Sink, message: Bytes)
    requires host.parse(message) == Some(Reading(JsString("u"), JsObject(map["toString" := JsNumber(0.0)]), [JsNull]))
    ensures Handle(host, s, message) == Sink(s.written, s.log + [Rejected(NoPrimitive)])
  {
    var v := host.parse(message).value;
    assert Prop(v, "uid") == JsString("u");
    assert Prop(v, "at") == JsObject(map["toString" := JsNumber(0.0)]);
    assert Prop(v, "data") == JsArray([JsNull]);
  }

  /**
   * A `type` of `["temperature"]` names the same field as `"temperature"`,
   * since a one-element array converts to the key of its element: the
   * later item's value is the one written.
   */
  lemma ArrayTypeSharesField(host: Host, s: Sink, message: Bytes, t: Instant)
    requires host.parse(message) ==
      Some(Payload(ExampleAt, [Item("temperature", JsNumber(20.0), "C"),
                               ItemOf(SensorMeasurement(JsArray([JsString("temperature")]), JsNumber(21.5), JsString("C")))]))
    requires host.parseDate(JsString(ExampleAt)) == Some(t)
    ensures Handle(host, s, message) ==
      Sink(s.written + [Point(SeriesName, map[UidTag := JsString(ExampleUid)], t, map["temperature" := 21.5])],
           s.log + [Acknowledged(JsString(ExampleUid))])
  {
    var fmt := host.numberToString;
    var v := host.parse(message).value;
    var m0 := SensorMeasurement(JsString("temperature"), JsNumber(20.0), JsString("C"));
    var m1 := SensorMeasurement(JsArray([JsString("temperature")]), JsNumber(21.5), JsString("C"));
    var x0 := Item("temperature", JsNumber(20.0), "C");
    BuildTwo(host.parseDate, ExampleAt, x0, ItemOf(m1));
    CopyOfItem("temperature", JsNumber(20.0), "C");
    CopyOfRoundTrip(m1, x0, x0);
    var ms := [m0, m1];
    var d := SensorData(JsString(ExampleUid), Some(t), ms);
    assert ValidMeasurement(ms[0]) && ValidMeasurement(ms[1]);
    assert AllValid(ms);
    assert Validate(d).Success?;
    assert FieldKey(fmt, m1) == "temperature" by {
      assert ToStr(fmt, m1.kind) == ToStr(fmt, JsString("temperature"));
    }
    TwoFields(fmt, ms);
    var p := Point(SeriesName, map[UidTag := JsString(ExampleUid)], t, map["temperature" := 21.5]);
    assert map["temperature" := 20.0]["temperature" := 21.5] == map["temperature" := 21.5];
    assert BuildPoint(fmt, d) == Success(p);
    Accepts(host, s, message, v, d, p);
  }

  /**
   * A uid of `{"toString": 0}` passes every check and its point is handed
   * to `writePoint`, but formatting the success line then throws: the
   * point is written and the conversion error is what gets logged.
   */
  lemma ToStringUidWrittenButLogged(host: Host, s: Sink, message: Bytes, t: Instant)
    requires host.parse(message) == Some(Reading(JsObject(map["toString" := JsNumber(0.0)]), JsString(ExampleAt), []))
    requires host.parseDate(JsString(ExampleAt)) == Some(t)
    ensures Handle(host, s, message) ==
      Sink(s.written + [Point(SeriesName, map[UidTag := JsObject(map["toString" := JsNumber(0.0)])], t, map[])],
           s.log + [Rejected(NoPrimitive)])
  {
    var uid := JsObject(map["toString" := JsNumber(0.0)]);
    var v := host.parse(message).value;
    assert Prop(v, "uid") == uid;
    assert Prop(v, "at") == JsString(ExampleAt);
    assert Prop(v, "data") == JsArray([]);
    assert CheckShape(v) == Success(());
    var d := SensorData(uid, Some(t), []);
    assert NewSensorData(host.parseDate, v) == Success(d);
    assert !Stringable(uid);
  }
}
