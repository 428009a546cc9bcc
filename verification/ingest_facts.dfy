/**
 * Properties of the message callback stated over the parsed JSON payload
 * alone: which payloads are written, what point they yield, which error a
 * rejected payload logs, and how a stream of messages is processed.
 */
module IngestFacts {
  import opened Wrappers
  import opened JsValues
  import opened Errors
  import opened SensorDto
  import opened Ingest

  /** The items of the payload's `data` array (none when it is not an array). */
  function Items(v: JsValue): seq<JsValue> {
    if IsArray(Prop(v, "data")) then Prop(v, "data").items else []
  }

  /** A payload item whose measurement passes validation. */
  predicate ValidItem(x: JsValue) {
    Truthy(Prop(x, "type")) && IsNumber(Prop(x, "value")) && Truthy(Prop(x, "unit"))
  }

  /** A valid payload item whose `type` also converts to a field key. */
  predicate WellFormedItem(x: JsValue) {
    ValidItem(x) && Stringable(Prop(x, "type"))
  }

  /** A parsed payload the callback writes. */
  predicate WellFormedPayload(host: Host, v: JsValue) {
    && Truthy(Prop(v, "uid"))
    && Truthy(Prop(v, "at"))
    && IsArray(Prop(v, "data"))
    && Stringable(Prop(v, "at"))
    && host.parseDate(Prop(v, "at")).Some?
    && forall i :: 0 <= i < |Items(v)| ==> WellFormedItem(Items(v)[i])
  }

  /** Every item's `type` converts to a field key. */
  predicate ItemsKeyed(items: seq<JsValue>) {
    forall i :: 0 <= i < |items| ==> Stringable(Prop(items[i], "type"))
  }

  /** The field key of a payload item: its `type` as a property key. */
  function ItemKey(host: Host, x: JsValue): string
    requires Stringable(Prop(x, "type"))
  {
    ToStr(host.numberToString, Prop(x, "type")).value
  }

  /** `items[i]` is the last item whose key is that of `items[i]`. */
  predicate LastItemWithKey(host: Host, items: seq<JsValue>, i: int)
    requires ItemsKeyed(items)
  {
    && 0 <= i < |items|
    && forall j :: i < j < |items| ==> ItemKey(host, items[j]) != ItemKey(host, items[i])
  }

  /** `p` is the point the payload `v` describes. */
  predicate PointOf(host: Host, v: JsValue, p: Point) {
    && ItemsKeyed(Items(v))
    && p.name == SeriesName
    && p.tags == map[UidTag := Prop(v, "uid")]
    && host.parseDate(Prop(v, "at")) == Some(p.timestamp)
    && p.fields.Keys == (set i | 0 <= i < |Items(v)| :: ItemKey(host, Items(v)[i]))
    && forall i :: 0 <= i < |Items(v)| && LastItemWithKey(host, Items(v), i) ==>
         ItemKey(host, Items(v)[i]) in p.fields && Prop(Items(v)[i], "value") == JsNumber(p.fields[ItemKey(host, Items(v)[i])])
  }

  /**
   * A message is written exactly when it parses to a well-formed payload:
   * every other message is rejected and leaves the written points as they were.
   */
  lemma HandleWritesExactlyWellFormed(host: Host, s: Sink, message: Bytes)
    ensures
      var s' := Handle(host, s, message);
      |s'.written| == |s.written| + 1 <==>
        host.parse(message).Some? && WellFormedPayload(host, host.parse(message).value)
  {
    var r := Process(host, message);
    if r.Success? {
      var v := host.parse(message).value;
      var items := Items(v);
      var d := r.value.reading;
      assert BuildPoint(host.numberToString, d).Success?;
      forall i | 0 <= i < |items| ensures WellFormedItem(items[i]) {
        assert ValidMeasurement(d.data[i]);
        assert Stringable(d.data[i].kind);
      }
    } else if host.parse(message).Some? && WellFormedPayload(host, host.parse(message).value) {
      ProcessAcceptsWellFormed(host, message);
    }
  }

  /** A well-formed payload passes every step of the `try` block. */
  lemma ProcessAcceptsWellFormed(host: Host, message: Bytes)
    requires host.parse(message).Some? && WellFormedPayload(host, host.parse(message).value)
    ensures
      var v := host.parse(message).value;
      && NewSensorData(host.parseDate, v).Success?
      && Validate(NewSensorData(host.parseDate, v).value).Success?
      && BuildPoint(host.numberToString, NewSensorData(host.parseDate, v).value).Success?
      && Process(host, message) == Success(Accepted(NewSensorData(host.parseDate, v).value,
                                                    BuildPoint(host.numberToString, NewSensorData(host.parseDate, v).value).value))
  {
    var v := host.parse(message).value;
    var items := Items(v);
    ConstructValidateAccepts(host.parseDate, v);
    assert forall i :: 0 <= i < |items| ==> ValidMeasurement(CopyOf(items[i])) by {
      forall i | 0 <= i < |items| ensures ValidMeasurement(CopyOf(items[i])) {
        assert WellFormedItem(items[i]);
      }
    }
    var d := NewSensorData(host.parseDate, v).value;
    forall i | 0 <= i < |d.data| ensures Stringable(d.data[i].kind) {
      assert WellFormedItem(items[i]);
    }
  }

  /**
   * A well-formed message is written as the point its payload describes,
   * carrying its uid, timestamp and one field per distinct item type with
   * the later item winning. The log acknowledges its uid, unless the uid
   * cannot be converted to a string: the success line then fails after the
   * write and logs that error instead.
   */
  lemma HandleWritesPointOf(host: Host, s: Sink, message: Bytes)
    requires host.parse(message).Some? && WellFormedPayload(host, host.parse(message).value)
    ensures
      var s' := Handle(host, s, message);
      var uid := Prop(host.parse(message).value, "uid");
      && |s'.written| == |s.written| + 1
      && PointOf(host, host.parse(message).value, s'.written[|s.written|])
      && s'.log[|s.log|] == (if Stringable(uid) then Acknowledged(uid) else Rejected(NoPrimitive))
  {
    var v := host.parse(message).value;
    ProcessAcceptsWellFormed(host, message);
    PointOfBuilt(host, v, NewSensorData(host.parseDate, v).value);
  }

  /** The measurements built from `v` have the keys of `v`'s items, position by position. */
  lemma BuiltKeys(host: Host, v: JsValue, d: SensorData)
    requires NewSensorData(host.parseDate, v) == Success(d)
    requires Fieldable(d.data)
    ensures |d.data| == |Items(v)| && ItemsKeyed(Items(v))
    ensures forall i :: 0 <= i < |d.data| ==> FieldKey(host.numberToString, d.data[i]) == ItemKey(host, Items(v)[i])
    ensures forall i :: 0 <= i < |d.data| ==> d.data[i].value == Prop(Items(v)[i], "value")
  {
    assert forall i :: 0 <= i < |d.data| ==> d.data[i].kind == Prop(Items(v)[i], "type");
  }

  /** The point built from the reading constructed from `v` is the point `v` describes. */
  lemma PointOfBuilt(host: Host, v: JsValue, d: SensorData)
    requires NewSensorData(host.parseDate, v) == Success(d)
    requires Validate(d).Success? && Fieldable(d.data)
    ensures BuildPoint(host.numberToString, d).Success?
    ensures PointOf(host, v, BuildPoint(host.numberToString, d).value)
  {
    var fmt := host.numberToString;
    var items := Items(v);
    var p := BuildPoint(fmt, d).value;
    BuiltKeys(host, v, d);
    assert p.fields.Keys == (set i | 0 <= i < |items| :: ItemKey(host, items[i])) by {
      assert p.fields.Keys == set i | 0 <= i < |d.data| :: FieldKey(fmt, d.data[i]);
    }
    forall i | 0 <= i < |items| && LastItemWithKey(host, items, i)
      ensures ItemKey(host, items[i]) in p.fields && Prop(items[i], "value") == JsNumber(p.fields[ItemKey(host, items[i])])
    {
      assert LastWithKey(fmt, d.data, i);
    }
  }

  /** A payload `JSON.parse` rejects is logged as a syntax error and not written. */
  lemma UnparsableRejected(host: Host, s: Sink, message: Bytes)
    requires host.parse(message).None?
    ensures Handle(host, s, message) == Sink(s.written, s.log + [Rejected(SyntaxError)])
  {
  }

  /**
   * A payload with a falsy `uid` or `at`, or a non-array `data`, is logged as
   * an invalid format whatever its items are: no reading is built; a
   * `null` payload fails on reading its `uid`.
   */
  lemma BadShapeRejected(host: Host, s: Sink, message: Bytes)
    requires host.parse(message).Some?
    requires
      var v := host.parse(message).value;
      !Truthy(Prop(v, "uid")) || !Truthy(Prop(v, "at")) || !IsArray(Prop(v, "data"))
    ensures
      var v := host.parse(message).value;
      Handle(host, s, message) ==
        Sink(s.written, s.log + [Rejected(if IsNullish(v) then CannotRead("uid") else InvalidMessageFormat)])
  {
  }

  /**
   * An `at` that cannot be converted to a primitive makes `new Date(at)`
   * throw during construction, before any item is read, so the error
   * wins over missing or invalid items.
   */
  lemma UnconvertibleAtRejected(host: Host, s: Sink, message: Bytes)
    requires host.parse(message).Some?
    requires
      var v := host.parse(message).value;
      Truthy(Prop(v, "uid")) && Truthy(Prop(v, "at")) && IsArray(Prop(v, "data")) && !Stringable(Prop(v, "at"))
    ensures Handle(host, s, message) == Sink(s.written, s.log + [Rejected(NoPrimitive)])
  {
    var v := host.parse(message).value;
    assert CheckShape(v).Success?;
  }

  /**
   * A nullish item makes construction throw on `item.type`; this error
   * wins over an invalid timestamp and over invalid items before it.
   */
  lemma NullItemRejected(host: Host, s: Sink, message: Bytes, k: int)
    requires host.parse(message).Some?
    requires
      var v := host.parse(message).value;
      Truthy(Prop(v, "uid")) && Truthy(Prop(v, "at")) && IsArray(Prop(v, "data")) && Stringable(Prop(v, "at"))
    requires 0 <= k < |Items(host.parse(message).value)| && IsNullish(Items(host.parse(message).value)[k])
    ensures Handle(host, s, message) == Sink(s.written, s.log + [Rejected(CannotRead("type"))])
  {
    var v := host.parse(message).value;
    assert CheckShape(v).Success?;
    assert Items(v) == Prop(v, "data").items;
    assert NewSensorData(host.parseDate, v) == Failure(CannotRead("type"));
  }

  /** With every item present, an unparsable `at` is reported before any item. */
  lemma BadTimestampRejected(host: Host, s: Sink, message: Bytes)
    requires host.parse(message).Some?
    requires
      var v := host.parse(message).value;
      && Truthy(Prop(v, "uid")) && Truthy(Prop(v, "at")) && IsArray(Prop(v, "data"))
      && Stringable(Prop(v, "at")) && host.parseDate(Prop(v, "at")).None?
      && forall i :: 0 <= i < |Items(v)| ==> !IsNullish(Items(v)[i])
    ensures Handle(host, s, message) == Sink(s.written, s.log + [Rejected(InvalidTimestamp)])
  {
    var v := host.parse(message).value;
    assert CheckShape(v).Success?;
    var r := NewSensorData(host.parseDate, v);
    assert Items(v) == Prop(v, "data").items;
    assert r.Success?;
    assert Validate(r.value) == Failure(InvalidTimestamp);
  }

  /** `Items(v)[k]` is the first item of `v` that fails validation. */
  predicate FirstBadItem(v: JsValue, k: int) {
    && 0 <= k < |Items(v)|
    && !ValidItem(Items(v)[k])
    && forall j :: 0 <= j < k ==> ValidItem(Items(v)[j])
  }

  /**
   * With a good uid and timestamp and every item present, the logged error
   * is the measurement error of the first item that fails validation.
   */
  lemma FirstBadItemReported(host: Host, s: Sink, message: Bytes, k: int)
    requires host.parse(message).Some?
    requires
      var v := host.parse(message).value;
      && Truthy(Prop(v, "uid")) && Truthy(Prop(v, "at")) && IsArray(Prop(v, "data"))
      && Stringable(Prop(v, "at")) && host.parseDate(Prop(v, "at")).Some?
      && forall i :: 0 <= i < |Items(v)| ==> !IsNullish(Items(v)[i])
    requires FirstBadItem(host.parse(message).value, k)
    ensures
      var x := Items(host.parse(message).value)[k];
      && ValidateMeasurement(CopyOf(x)).Failure?
      && Handle(host, s, message) == Sink(s.written, s.log + [Rejected(ValidateMeasurement(CopyOf(x)).error)])
  {
    var v := host.parse(message).value;
    var items := Items(v);
    assert CheckShape(v).Success?;
    assert items == Prop(v, "data").items;
    var d := NewSensorData(host.parseDate, v).value;
    assert FirstInvalid(d.data, k) by {
      assert d.data[k] == CopyOf(items[k]);
      forall j | 0 <= j < k ensures ValidMeasurement(d.data[j]) {
        assert d.data[j] == CopyOf(items[j]);
        assert ValidItem(items[j]);
      }
    }
    ValidateEachReportsFirst(d.data, k);
  }

  /**
   * A valid reading whose item types do not all convert to field keys
   * fails in `floatField`, before `writePoint`: nothing is written.
   */
  lemma UnconvertibleTypeRejected(host: Host, s: Sink, message: Bytes, k: int)
    requires host.parse(message).Some?
    requires
      var v := host.parse(message).value;
      && Truthy(Prop(v, "uid")) && Truthy(Prop(v, "at")) && IsArray(Prop(v, "data"))
      && Stringable(Prop(v, "at")) && host.parseDate(Prop(v, "at")).Some?
      && forall i :: 0 <= i < |Items(v)| ==> ValidItem(Items(v)[i])
    requires 0 <= k < |Items(host.parse(message).value)| && !Stringable(Prop(Items(host.parse(message).value)[k], "type"))
    ensures Handle(host, s, message) == Sink(s.written, s.log + [Rejected(NoPrimitive)])
  {
    var v := host.parse(message).value;
    var items := Items(v);
    assert CheckShape(v).Success?;
    assert items == Prop(v, "data").items;
    forall i | 0 <= i < |items| ensures !IsNullish(items[i]) {
      assert ValidItem(items[i]);
    }
    var d := NewSensorData(host.parseDate, v).value;
    forall i | 0 <= i < |d.data| ensures ValidMeasurement(d.data[i]) {
      assert ValidItem(items[i]);
    }
    assert d.data[k].kind == Prop(items[k], "type");
  }

  /**
   * The callback never logs "UID is required": its own shape check rejects
   * a falsy uid first, so that check of `validate()` is unreachable here.
   */
  lemma NeverUidRequired(host: Host, s: Sink, message: Bytes)
    ensures Handle(host, s, message).log[|s.log|] != Rejected(UidRequired)
  {
    var r := Process(host, message);
    if host.parse(message).Some? {
      var v := host.parse(message).value;
      if CheckShape(v).Success? && NewSensorData(host.parseDate, v).Success? {
        assert Truthy(NewSensorData(host.parseDate, v).value.uid);
      }
    }
  }

  /** The log entry each message of a stream yields on its own. */
  function Outcomes(host: Host, messages: seq<Bytes>): seq<Observation> {
    seq(|messages|, k requires 0 <= k < |messages| => Outcome(Process(host, messages[k])))
  }

  /** The points each message of a stream emits on its own, in order. */
  function EmittedAll(host: Host, messages: seq<Bytes>): seq<Point> {
    if |messages| == 0 then [] else Emitted(Process(host, messages[0])) + EmittedAll(host, messages[1..])
  }

  /**
   * No failure escapes the callback: every callback run logs exactly one
   * entry, in order, and that entry depends on its payload alone, not on
   * the state earlier runs left.
   */
  lemma {:induction false} RunLogsEachMessage(host: Host, s: Sink, messages: seq<Bytes>)
    ensures Run(host, s, messages).log == s.log + Outcomes(host, messages)
    decreases |messages|
  {
    if |messages| > 0 {
      var s1 := Handle(host, s, messages[0]);
      RunLogsEachMessage(host, s1, messages[1..]);
      assert Outcomes(host, messages) == [Outcome(Process(host, messages[0]))] + Outcomes(host, messages[1..]);
    }
  }

  /**
   * The points a sequence of callback runs writes are those each run emits
   * on its own, in arrival order: a rejected payload leaves the write path
   * untouched.
   */
  lemma {:induction false} RunWritesEachAccepted(host: Host, s: Sink, messages: seq<Bytes>)
    ensures Run(host, s, messages).written == s.written + EmittedAll(host, messages)
    decreases |messages|
  {
    if |messages| > 0 {
      var s1 := Handle(host, s, messages[0]);
      RunWritesEachAccepted(host, s1, messages[1..]);
    }
  }

  /** A sequence of callback runs writes at most one point per run. */
  lemma {:induction false} RunWritesAtMostOnePerMessage(host: Host, s: Sink, messages: seq<Bytes>)
    ensures |Run(host, s, messages).written| <= |s.written| + |messages|
    ensures |Run(host, s, messages).log| == |s.log| + |messages|
    decreases |messages|
  {
    if |messages| > 0 {
      RunWritesAtMostOnePerMessage(host, Handle(host, s, messages[0]), messages[1..]);
    }
  }
}
