/**
 * The MQTT "message" callback as a pure step: parse the payload, check its
 * shape, build and validate a `SensorData`, build an InfluxDB point, hand it
 * to the write API, and log one outcome. Every error raised on the way is
 * caught and logged, so the step is total.
 */
module Ingest {
  import opened Wrappers
  import opened JsValues
  import opened Errors
  import opened SensorDto

  type Bytes = seq<bv8>

  /** The series every point is written to. */
  const SeriesName: string := "environment_data"

  /** The tag key holding the device id. */
  const UidTag: string := "uid"

  /** A time-series point: series name, tags, timestamp and float fields. */
  datatype Point = Point(name: string, tags: map<string, JsValue>, timestamp: Instant, fields: map<string, Num>)

  /**
   * The host built-ins the callback relies on: `JSON.parse` (None for a
   * SyntaxError), `new Date(v)` (None for an invalid date) and the JS
   * number-to-string conversion used for property keys.
   */
  datatype Host = Host(parse: Bytes -> Option<JsValue>, parseDate: DateParser, numberToString: Num -> string)

  /** What the callback logs for one message. */
  datatype Observation = Acknowledged(uid: JsValue) | Rejected(error: Error)

  /** The points handed to the write API and the log, oldest first. */
  datatype Sink = Sink(written: seq<Point>, log: seq<Observation>)

  /** The result of a message that passed every step. */
  datatype Accepted = Accepted(reading: SensorData, point: Point)

  /** The field key `point.floatField(type, ...)` stores under. */
  function FieldKey(fmt: Num -> string, m: SensorMeasurement): string
    requires Stringable(m.kind)
  {
    ToStr(fmt, m.kind).value
  }

  /**
   * Every measurement can become a float field: its value is a JS number
   * and its type converts to a property key.
   */
  predicate Fieldable(ms: seq<SensorMeasurement>) {
    forall i :: 0 <= i < |ms| ==> IsNumber(ms[i].value) && Stringable(ms[i].kind)
  }

  /** The fields after calling `floatField` once per measurement, in order. */
  function Fields(fmt: Num -> string, ms: seq<SensorMeasurement>): map<string, Num>
    requires Fieldable(ms)
  {
    if |ms| == 0 then map[]
    else Fields(fmt, ms[..|ms| - 1])[FieldKey(fmt, ms[|ms| - 1]) := ms[|ms| - 1].value.n]
  }

  /** `ms[i]` is the last measurement of `ms` whose key is that of `ms[i]`. */
  predicate LastWithKey(fmt: Num -> string, ms: seq<SensorMeasurement>, i: int)
    requires Fieldable(ms)
  {
    && 0 <= i < |ms|
    && forall j :: i < j < |ms| ==> FieldKey(fmt, ms[j]) != FieldKey(fmt, ms[i])
  }

  /** The field keys are exactly the keys of the measurements. */
  lemma {:induction false} FieldsKeys(fmt: Num -> string, ms: seq<SensorMeasurement>)
    requires Fieldable(ms)
    ensures Fields(fmt, ms).Keys == set i | 0 <= i < |ms| :: FieldKey(fmt, ms[i])
  {
    if |ms| > 0 {
      var init := ms[..|ms| - 1];
      assert forall i :: 0 <= i < |init| ==> init[i] == ms[i];
      FieldsKeys(fmt, init);
      var keys := set i | 0 <= i < |ms| :: FieldKey(fmt, ms[i]);
      var initKeys := set i | 0 <= i < |init| :: FieldKey(fmt, init[i]);
      forall k | k in keys ensures k in initKeys || k == FieldKey(fmt, ms[|ms| - 1]) {
        var i :| 0 <= i < |ms| && FieldKey(fmt, ms[i]) == k;
        if i < |ms| - 1 {
          assert FieldKey(fmt, init[i]) == k;
        }
      }
      forall k | k in initKeys ensures k in keys {
        var i :| 0 <= i < |init| && FieldKey(fmt, init[i]) == k;
        assert FieldKey(fmt, ms[i]) == k;
      }
    }
  }

  /** Each field holds the value of the last measurement with its key. */
  lemma {:induction false} FieldsLastWriteWins(fmt: Num -> string, ms: seq<SensorMeasurement>)
    requires Fieldable(ms)
    ensures forall i :: LastWithKey(fmt, ms, i) ==> FieldKey(fmt, ms[i]) in Fields(fmt, ms)
    ensures forall i :: LastWithKey(fmt, ms, i) ==> Fields(fmt, ms)[FieldKey(fmt, ms[i])] == ms[i].value.n
  {
    if |ms| > 0 {
      var init := ms[..|ms| - 1];
      assert forall i :: 0 <= i < |init| ==> init[i] == ms[i];
      FieldsLastWriteWins(fmt, init);
      forall i | LastWithKey(fmt, ms, i) && i < |ms| - 1 ensures LastWithKey(fmt, init, i) {
        forall j | i < j < |init| ensures FieldKey(fmt, init[j]) != FieldKey(fmt, init[i]) {
          assert init[j] == ms[j];
        }
      }
    }
  }

  /**
   * The point built from a validated reading: series `environment_data`,
   * tag `uid`, the reading's timestamp, and a field per measurement. The
   * `floatField` calls throw when a measurement type cannot be converted
   * to a property key, and the point is then dropped.
   */
  function BuildPoint(fmt: Num -> string, d: SensorData): (r: Result<Point, Error>)
    requires Validate(d).Success?
    ensures r.Success? <==> forall i :: 0 <= i < |d.data| ==> Stringable(d.data[i].kind)
    ensures r.Failure? ==> r.error == NoPrimitive
    ensures r.Success? ==>
              && Fieldable(d.data)
              && r.value.name == SeriesName
              && r.value.tags == map[UidTag := d.uid]
              && d.at == Some(r.value.timestamp)
              && r.value.fields.Keys == (set i | 0 <= i < |d.data| :: FieldKey(fmt, d.data[i]))
              && forall i :: LastWithKey(fmt, d.data, i) ==> r.value.fields[FieldKey(fmt, d.data[i])] == d.data[i].value.n
  {
    if Fieldable(d.data) then
      FieldsKeys(fmt, d.data);
      FieldsLastWriteWins(fmt, d.data);
      Success(Point(SeriesName, map[UidTag := d.uid], d.at.value, Fields(fmt, d.data)))
    else
      Failure(NoPrimitive)
  }

  /**
   * The guard before construction: reading `uid` of a nullish payload
   * throws; otherwise a falsy `uid`, a falsy `at` or a non-array `data` is
   * an invalid format.
   */
  function CheckShape(v: JsValue): (r: Result<(), Error>)
    ensures IsNullish(v) ==> r == Failure(CannotRead("uid"))
    ensures !IsNullish(v) ==>
              (r.Success? <==> Truthy(Prop(v, "uid")) && Truthy(Prop(v, "at")) && IsArray(Prop(v, "data")))
    ensures !IsNullish(v) && r.Failure? ==> r.error == InvalidMessageFormat
  {
    if IsNullish(v) then Failure(CannotRead("uid"))
    else if !Truthy(Prop(v, "uid")) || !Truthy(Prop(v, "at")) || !IsArray(Prop(v, "data")) then
      Failure(InvalidMessageFormat)
    else
      Success(())
  }

  /**
   * The body of the `try` block up to `writePoint`: a message gets this far
   * only when it parses, passes the shape check, and yields a valid reading
   * whose point could be built; that point carries the reading's uid and
   * timestamp.
   */
  function Process(host: Host, message: Bytes): (r: Result<Accepted, Error>)
    ensures host.parse(message).None? ==> r == Failure(SyntaxError)
    ensures r.Success? ==>
              && host.parse(message).Some?
              && CheckShape(host.parse(message).value).Success?
              && NewSensorData(host.parseDate, host.parse(message).value) == Success(r.value.reading)
              && Validate(r.value.reading).Success?
              && r.value.point.tags == map[UidTag := r.value.reading.uid]
              && r.value.reading.at == Some(r.value.point.timestamp)
    ensures r.Failure? ==> r.error != UidRequired
  {
    var v :- host.parse(message).ToResult(SyntaxError);
    var _ :- CheckShape(v);
    var d :- NewSensorData(host.parseDate, v);
    var _ :- Validate(d);
    var p :- BuildPoint(host.numberToString, d);
    Success(Accepted(d, p))
  }

  /**
   * The one log entry for a processed message. The success line formats
   * `${sensorData.uid}` after `writePoint`, so a uid that cannot be
   * converted to a string turns it into a logged error.
   */
  function Outcome(r: Result<Accepted, Error>): Observation {
    match r
    case Success(a) => if Stringable(a.reading.uid) then Acknowledged(a.reading.uid) else Rejected(NoPrimitive)
    case Failure(e) => Rejected(e)
  }

  /** The points a processed message hands to the write API. */
  function Emitted(r: Result<Accepted, Error>): seq<Point> {
    match r
    case Success(a) => [a.point]
    case Failure(_) => []
  }

  /**
   * One callback invocation: at most one point is written and exactly one
   * outcome is logged; the earlier points and log entries are kept. An
   * acknowledged message has written its point, and a written point is
   * followed by its acknowledgement unless the success line itself failed
   * to convert the uid.
   */
  function Handle(host: Host, s: Sink, message: Bytes): (s': Sink)
    ensures |s'.log| == |s.log| + 1 && s'.log[..|s.log|] == s.log
    ensures |s.written| <= |s'.written| <= |s.written| + 1 && s'.written[..|s.written|] == s.written
    ensures s'.log[|s.log|].Acknowledged? ==> |s'.written| == |s.written| + 1
    ensures |s'.written| == |s.written| + 1 ==>
              s'.log[|s.log|].Acknowledged? || s'.log[|s.log|] == Rejected(NoPrimitive)
  {
    var r := Process(host, message);
    Sink(s.written + Emitted(r), s.log + [Outcome(r)])
  }

  /**
   * The callback run once per element of `messages`, in order. Each element
   * stands for one callback run, so a delivery that reaches several
   * registered listeners appears once per listener.
   */
  function Run(host: Host, s: Sink, messages: seq<Bytes>): Sink
    decreases |messages|
  {
    if |messages| == 0 then s
    else Run(host, Handle(host, s, messages[0]), messages[1..])
  }
}
