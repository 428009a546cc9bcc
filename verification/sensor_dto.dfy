/**
 * The sensor reading DTOs: `SensorData` (device id, timestamp, measurements)
 * and `SensorMeasurement` (type, value, unit). Each is built first and
 * checked afterwards by a separate validation step that stops at the first
 * violated rule; exceptions are modelled as `Failure` results.
 */
module SensorDto {
  import opened Wrappers
  import opened JsValues
  import opened Errors

  /** One measurement; `kind` holds the source's `type` field, stored unchecked. */
  datatype SensorMeasurement = SensorMeasurement(kind: JsValue, value: JsValue, unit: JsValue)

  /**
   * One reading. `at` is the parsed timestamp, None for an invalid date.
   * `data` is always a sequence: the constructor builds it with `map`, so
   * the array check of `validate()` can never fail and has no counterpart.
   */
  datatype SensorData = SensorData(uid: JsValue, at: Option<Instant>, data: seq<SensorMeasurement>)

  /**
   * The time value `new Date(v)` gives once `v` has been converted to a
   * primitive: None when it is NaN (an Invalid Date).
   */
  type DateParser = JsValue -> Option<Instant>

  /** The measurement `new SensorMeasurement(item.type, item.value, item.unit)` holds. */
  function CopyOf(item: JsValue): SensorMeasurement {
    SensorMeasurement(Prop(item, "type"), Prop(item, "value"), Prop(item, "unit"))
  }

  /** The item `{"type": ..., "value": ..., "unit": ...}` carrying the fields of `m`. */
  function ItemOf(m: SensorMeasurement): JsValue {
    JsObject(map["type" := m.kind, "value" := m.value, "unit" := m.unit])
  }

  /**
   * The constructor stores exactly an item's `type`, `value` and `unit`: an
   * item written out from a measurement gives that measurement back, and
   * items that agree on these three keys give the same measurement.
   */
  lemma CopyOfRoundTrip(m: SensorMeasurement, x: JsValue, y: JsValue)
    requires forall k :: k in {"type", "value", "unit"} ==> Prop(x, k) == Prop(y, k)
    ensures CopyOf(ItemOf(m)) == m
    ensures CopyOf(x) == CopyOf(y)
  {
    assert "type" in {"type", "value", "unit"};
    assert "value" in {"type", "value", "unit"};
    assert "unit" in {"type", "value", "unit"};
  }

  /** The `map` callback: reading `item.type` throws when the item is nullish. */
  function NewMeasurement(item: JsValue): Result<SensorMeasurement, Error> {
    if IsNullish(item) then Failure(CannotRead("type")) else Success(CopyOf(item))
  }

  /** `items.map(...)`: one measurement per item, in order, or the first throw. */
  function NewMeasurements(items: seq<JsValue>): (r: Result<seq<SensorMeasurement>, Error>)
    ensures r.Success? <==> forall i :: 0 <= i < |items| ==> !IsNullish(items[i])
    ensures r.Success? ==> |r.value| == |items|
    ensures r.Success? ==> forall i :: 0 <= i < |items| ==> r.value[i] == CopyOf(items[i])
    ensures r.Failure? ==> r.error == CannotRead("type")
  {
    if |items| == 0 then Success([])
    else
      var m :- NewMeasurement(items[0]);
      var rest :- NewMeasurements(items[1..]);
      Success([m] + rest)
  }

  /**
   * The `SensorData` constructor applied to the object `raw`: destructuring a
   * nullish argument throws; so does `new Date(at)` when `at` cannot be
   * converted to a primitive, and then `data.map` when `data` is nullish or
   * not an array, or when an item is nullish.
   */
  function NewSensorData(parseDate: DateParser, raw: JsValue): (r: Result<SensorData, Error>)
    ensures IsNullish(raw) ==> r == Failure(CannotRead("uid"))
    ensures !IsNullish(raw) && !Stringable(Prop(raw, "at")) ==> r == Failure(NoPrimitive)
    ensures !IsNullish(raw) && Stringable(Prop(raw, "at")) && IsNullish(Prop(raw, "data"))
            ==> r == Failure(CannotRead("map"))
    ensures !IsNullish(raw) && Stringable(Prop(raw, "at"))
            && !IsNullish(Prop(raw, "data")) && !IsArray(Prop(raw, "data"))
            ==> r == Failure(NotAFunction("map"))
    ensures !IsNullish(raw) && Stringable(Prop(raw, "at")) && IsArray(Prop(raw, "data")) && r.Failure?
            ==> r.error == CannotRead("type")
    ensures r.Success? <==>
              && !IsNullish(raw)
              && Stringable(Prop(raw, "at"))
              && IsArray(Prop(raw, "data"))
              && forall i :: 0 <= i < |Prop(raw, "data").items| ==> !IsNullish(Prop(raw, "data").items[i])
    ensures r.Success? ==>
              && r.value.uid == Prop(raw, "uid")
              && r.value.at == parseDate(Prop(raw, "at"))
              && |r.value.data| == |Prop(raw, "data").items|
              && forall i :: 0 <= i < |r.value.data| ==> r.value.data[i] == CopyOf(Prop(raw, "data").items[i])
  {
    if IsNullish(raw) then Failure(CannotRead("uid"))
    else
      var uid := Prop(raw, "uid");
      var at := Prop(raw, "at");
      var data := Prop(raw, "data");
      if !Stringable(at) then Failure(NoPrimitive)
      else if IsNullish(data) then Failure(CannotRead("map"))
      else if !IsArray(data) then Failure(NotAFunction("map"))
      else
        var ms :- NewMeasurements(data.items);
        Success(SensorData(uid, parseDate(at), ms))
  }

  /** The rule `SensorMeasurement.validate()` enforces, stated as one predicate. */
  predicate ValidMeasurement(m: SensorMeasurement) {
    Truthy(m.kind) && IsNumber(m.value) && Truthy(m.unit)
  }

  /** `SensorMeasurement.validate()`: type, then value, then unit. */
  function ValidateMeasurement(m: SensorMeasurement): (r: Result<(), Error>)
    ensures r.Success? <==> ValidMeasurement(m)
    ensures !Truthy(m.kind) ==> r == Failure(TypeRequired)
    ensures Truthy(m.kind) && !IsNumber(m.value) ==> r == Failure(ValueNotNumber)
    ensures Truthy(m.kind) && IsNumber(m.value) && !Truthy(m.unit) ==> r == Failure(UnitRequired)
  {
    if !Truthy(m.kind) then Failure(TypeRequired)
    else if !IsNumber(m.value) then Failure(ValueNotNumber)
    else if !Truthy(m.unit) then Failure(UnitRequired)
    else Success(())
  }

  /** Every measurement of `ms` is valid. */
  predicate AllValid(ms: seq<SensorMeasurement>) {
    forall i :: 0 <= i < |ms| ==> ValidMeasurement(ms[i])
  }

  /** `ms[i]` is the first invalid measurement of `ms`. */
  predicate FirstInvalid(ms: seq<SensorMeasurement>, i: int) {
    && 0 <= i < |ms|
    && !ValidMeasurement(ms[i])
    && forall j :: 0 <= j < i ==> ValidMeasurement(ms[j])
  }

  /** `this.data.forEach((item) => item.validate())`: the first throw ends the loop. */
  function ValidateEach(ms: seq<SensorMeasurement>): (r: Result<(), Error>)
    ensures r.Success? <==> AllValid(ms)
    ensures r.Failure? ==> exists i :: FirstInvalid(ms, i) && ValidateMeasurement(ms[i]) == r
  {
    if |ms| == 0 then Success(())
    else
      var _ :- ValidateMeasurement(ms[0]);
      var rest := ValidateEach(ms[1..]);
      // The witness and assertion below carry the proof of the postcondition for the tail.
      if rest.Failure? then
        var i :| FirstInvalid(ms[1..], i) && ValidateMeasurement(ms[1..][i]) == rest;
        assert FirstInvalid(ms, i + 1);
        rest
      else
        assert AllValid(ms) by {
          forall k | 0 <= k < |ms| ensures ValidMeasurement(ms[k]) {
            if k > 0 { assert ms[k] == ms[1..][k - 1]; }
          }
        }
        rest
  }

  /** `SensorData.validate()`: uid, then timestamp, then each measurement in order. */
  function Validate(d: SensorData): (r: Result<(), Error>)
    ensures !Truthy(d.uid) ==> r == Failure(UidRequired)
    ensures Truthy(d.uid) && d.at.None? ==> r == Failure(InvalidTimestamp)
    ensures r.Success? <==> Truthy(d.uid) && d.at.Some? && AllValid(d.data)
    ensures Truthy(d.uid) && d.at.Some? && r.Failure? ==>
              exists i :: FirstInvalid(d.data, i) && r == ValidateMeasurement(d.data[i])
  {
    if !Truthy(d.uid) then Failure(UidRequired)
    else if d.at.None? then Failure(InvalidTimestamp)
    else ValidateEach(d.data)
  }

  /** The error `forEach` reports is that of the first invalid measurement. */
  lemma {:induction false} ValidateEachReportsFirst(ms: seq<SensorMeasurement>, k: int)
    requires FirstInvalid(ms, k)
    ensures ValidateEach(ms) == ValidateMeasurement(ms[k])
  {
    if k > 0 {
      assert ValidMeasurement(ms[0]);
      assert FirstInvalid(ms[1..], k - 1) by {
        forall j | 0 <= j < k - 1 ensures ValidMeasurement(ms[1..][j]) {
          assert ms[1..][j] == ms[j + 1];
        }
      }
      ValidateEachReportsFirst(ms[1..], k - 1);
    }
  }

  /**
   * Constructing and then validating accepts exactly the objects whose uid is
   * truthy, whose `at` converts and parses, and whose `data` is an array of items each with
   * a truthy `type`, a number `value` and a truthy `unit`.
   */
  lemma ConstructValidateAccepts(parseDate: DateParser, raw: JsValue)
    ensures
      var r := NewSensorData(parseDate, raw);
      (r.Success? && Validate(r.value).Success?) <==>
        && Truthy(Prop(raw, "uid"))
        && Stringable(Prop(raw, "at"))
        && parseDate(Prop(raw, "at")).Some?
        && IsArray(Prop(raw, "data"))
        && forall i :: 0 <= i < |Prop(raw, "data").items| ==> ValidMeasurement(CopyOf(Prop(raw, "data").items[i]))
  {
    var r := NewSensorData(parseDate, raw);
    var data := Prop(raw, "data");
    if Truthy(Prop(raw, "uid")) && Stringable(Prop(raw, "at")) && IsArray(data)
       && forall i :: 0 <= i < |data.items| ==> ValidMeasurement(CopyOf(data.items[i]))
    {
      assert !IsNullish(raw);
      forall i | 0 <= i < |data.items| ensures !IsNullish(data.items[i]) {
        assert ValidMeasurement(CopyOf(data.items[i]));
      }
      assert r.Success?;
    }
  }
}
