# MQTT → InfluxDB sensor bridge: message-to-point pipeline in Dafny

This project models the core of a small Node.js bridge. The bridge receives
sensor readings as JSON on an MQTT topic, validates them, and writes each
valid reading to InfluxDB as one time-series point. The model covers two parts:

- **The sensor DTOs** (`dto/SensorDto.js`), module `SensorDto`.
  - `SensorData` holds `uid`, the parsed `at` and the `data` measurements.
  - `SensorMeasurement` holds `type`, `value` and `unit`. The field is called
    `kind` here because `type` is a Dafny keyword.
  - Each class is built first and validated afterwards. Validation stops at
    the first rule that fails. A thrown `Error` becomes a `Failure` result.
- **The MQTT `"message"` callback** (`main.js:30-56`), module `Ingest`. It is
  a pure step function on a `Sink`, which holds the points handed to
  `writeApi.writePoint` and the log. Each message goes through these steps:
  1. `JSON.parse`
  2. the shape check
  3. build and validate the `SensorData`
  4. build the point
  5. write it
  6. log exactly one outcome

  Any error in steps 1–5 is caught and logged as `Rejected`. A message that
  gets through logs `Acknowledged(uid)`. The exception is a uid that cannot
  be converted to a string: formatting the success line then throws after
  the write, and that error is logged instead.

The JSON values the code works on are modelled by `JsValues.JsValue`. Four
JS operations are modelled on them:

- `Truthy` is JS truthiness, i.e. what `!x` tests.
- `IsNumber` is `typeof x === 'number'`.
- `Stringable` says when converting a value to a primitive returns instead
  of throwing. A parsed object with its own `toString` key, such as
  `{"toString": 0}`, cannot be converted. Neither can an array that holds
  one at any depth.
- `ToStr` turns a value into the string used as a property key, which is how
  `point.floatField(type, …)` names a field. It fails exactly where
  `Stringable` does not hold.

Three host built-ins are fields of the `Ingest.Host` record instead of being
modelled:

- `JSON.parse` (None for a SyntaxError)
- `new Date(v)` once `v` has been converted to a primitive (None for an
  Invalid Date, whose time is NaN)
- JS number-to-string conversion

`IngestFacts` restates the callback's behaviour directly over the parsed
payload: which payloads are written, the point they produce, which error each
kind of bad payload logs, and how a stream of messages is processed.
`Examples` works through concrete payloads.

Behaviour of the code that the model keeps as written:

- Construction can throw. `data.map` throws when `data` is missing or not
  an array, and `item.type` throws when an item is `null`. The model reports
  these as `CannotRead` / `NotAFunction` errors. Once the shape check has
  passed and `at` has converted, a `null` item wins over an invalid
  timestamp and over invalid items before it (`NullItemRejected`).
- The measurement checks are looser than the doc comments' types suggest
  (dto/SensorDto.js:44-47). `type` and `unit` need only be truthy, so a
  number `type` such as `5` passes. `value` need only satisfy
  `typeof value === 'number'`.
- Three conversions can throw a TypeError on a value that cannot be
  converted to a primitive:
  - `new Date(at)` in the constructor (dto/SensorDto.js:15), before
    `data.map` runs;
  - the property key of `type` in `floatField` (main.js:45), before
    `writePoint`;
  - `${sensorData.uid}` in the success line (main.js:52), after
    `writePoint`.
  The first two reject the message. The third leaves the point written and
  logs the error.
- Errors carry the code's own messages. The shape check logs "Invalid
  message format" (main.js:34), and parse failures are JSON SyntaxErrors.
- The `Array.isArray(this.data)` check in `validate()` (dto/SensorDto.js:30)
  can never fail, because the constructor always builds `data` with `map`.
  `SensorData.data` is therefore a sequence and the check has no
  counterpart.
- The "UID is required" check of `validate()` can never fire inside the
  callback, because the shape check runs first (`NeverUidRequired`).
- An empty `data` array is valid. It is handed to `writePoint` as a point
  with no fields (`EmptyDataWritten`).
- Validation mutates nothing. `Validate` is a pure function of the reading,
  so two calls on the same reading give the same verdict by definition.

## Model

| member | source | states |
|---|---|---|
| JsValues.ToStr | main.js:45 | Converting a value to a property key succeeds exactly when it is `Stringable`. It fails for an object with its own `toString` key and for an array holding one. A one-element array whose element is not null or undefined has the key of its element, so `["temperature"]` names the same field as `"temperature"` |
| Errors.Error.Message | main.js:34 | The errors the code throws itself give their literal message text. The ones the JS engine raises (syntax error, failed read, not a function, no primitive) give None: they do carry a message, but its wording is the engine's and is not modelled |
| Errors.MessageIdentifiesError | dto/SensorDto.js:27-64 | Each error the code throws itself has its own message text, so the logged `err.message` names one error |
| SensorDto.CopyOfRoundTrip | dto/SensorDto.js:49-53 | A measurement stores exactly an item's `type`, `value` and `unit`. Writing a measurement out as an item and constructing it again gives it back. Items that agree on these three keys give the same measurement |
| SensorDto.NewMeasurements | dto/SensorDto.js:16-18 | `data.map` succeeds exactly when no item is null/undefined. It then yields one measurement per item, in order, with `type`/`value`/`unit` copied unchanged. Otherwise it fails on reading `type` |
| SensorDto.NewSensorData | dto/SensorDto.js:13-19 | The constructor copies `uid` verbatim and stores `new Date(at)`. It fails, in this order, when the argument is nullish (`uid` read), when `at` cannot be converted to a primitive, when `data` is nullish (`map` read), when `data` is not an array (`map` is not a function), or when an item is nullish. It succeeds exactly when none of these holds |
| SensorDto.ValidateMeasurement | dto/SensorDto.js:60-65 | Succeeds iff `type` is truthy, `value` is a JS number and `unit` is truthy. A missing type is reported before a non-number value, which is reported before a missing unit |
| SensorDto.ValidateEach | dto/SensorDto.js:34 | The `forEach` over measurements succeeds iff every measurement is valid. On failure it returns the error of some first invalid measurement |
| SensorDto.ValidateEachReportsFirst | dto/SensorDto.js:34 | The reported error is exactly that of the first invalid measurement in sequence order |
| SensorDto.Validate | dto/SensorDto.js:26-35 | A falsy `uid` gives "UID is required" whatever else holds. Otherwise an invalid date gives "Invalid timestamp". Otherwise the first invalid measurement's error is returned. Success iff uid, date and every measurement pass |
| SensorDto.ConstructValidateAccepts | dto/SensorDto.js:13-35 | Construct-then-validate accepts exactly the objects with a truthy `uid`, an `at` that converts and parses, and an array `data` whose items each pass the measurement rule |
| Ingest.FieldsKeys | main.js:44-46 | Setting one float field per measurement in order (the fold `Ingest.Fields`) gives exactly the set of the measurements' `type` keys as field names |
| Ingest.FieldsLastWriteWins | main.js:44-46 | Each field holds the value of the last measurement with that key, so a repeated `type` ends with the later value |
| Ingest.BuildPoint | main.js:40-46 | Building the point of a validated reading fails, with the conversion error, exactly when some measurement `type` cannot be converted to a key. Otherwise the point has series `environment_data`, tag `uid` equal to the reading's uid, the parsed timestamp, and the fields described above |
| Ingest.CheckShape | main.js:33-35 | A nullish payload throws on reading `uid`. Any other payload passes iff `uid` and `at` are truthy and `data` is an array, and otherwise fails with "Invalid message format" |
| Ingest.Process | main.js:32-46 | A message reaches `writePoint` only when it parses, passes the shape check and yields a valid reading, and its point carries that reading's uid and timestamp. Bytes that do not parse fail with a syntax error, and "UID is required" never escapes |
| Ingest.Handle | main.js:31-55 | One callback run appends exactly one log entry and at most one point, and keeps all earlier points and entries. An acknowledged message has written its point. A written point is either acknowledged or followed by the conversion error of the success line |
| IngestFacts.HandleWritesExactlyWellFormed | main.js:31-49 | A message is written iff it parses to a payload with truthy `uid` and `at`, an `at` that converts and parses, and an array `data` whose items each have a truthy `type` that converts to a key, a number `value` and a truthy `unit`. Every other message leaves the written points unchanged |
| IngestFacts.HandleWritesPointOf | main.js:37-52 | For such a payload, the point written carries its uid tag, its parsed timestamp and one field per distinct item type, with the later item winning. The log acknowledges the uid if it converts to a string, and otherwise logs the conversion error |
| IngestFacts.PointOfBuilt | main.js:37-46 | The point built from the constructed reading is the one the raw payload describes, stated item by item |
| IngestFacts.UnparsableRejected | main.js:32 | Bytes `JSON.parse` rejects are logged as a syntax error, and nothing is written |
| IngestFacts.BadShapeRejected | main.js:33-35 | A payload with falsy `uid`/`at` or non-array `data` is logged as "Invalid message format" (a `null` payload as a failed `uid` read) whatever its items hold, and nothing is written |
| IngestFacts.UnconvertibleAtRejected | dto/SensorDto.js:15 | With the shape check passed, an `at` that cannot be converted to a primitive is logged as the conversion error, whatever the items hold, and nothing is written |
| IngestFacts.NullItemRejected | dto/SensorDto.js:16-17 | With the shape check passed and a convertible `at`, a null/undefined item makes the callback log a failed `type` read and write nothing, even if the date or earlier items are invalid |
| IngestFacts.BadTimestampRejected | dto/SensorDto.js:28-29 | With the shape check passed, `at` convertible and every item present, an unparseable `at` is logged as "Invalid timestamp", and nothing is written |
| IngestFacts.FirstBadItemReported | main.js:37-38 | With the shape check passed, a convertible and parseable date, and every item present, the logged error is the measurement error of the first item that fails validation, and nothing is written |
| IngestFacts.UnconvertibleTypeRejected | main.js:44-46 | A valid reading with an item whose `type` cannot be converted to a key fails in `floatField` before `writePoint`. The conversion error is logged and nothing is written |
| IngestFacts.NeverUidRequired | main.js:33 | The callback never logs "UID is required": its shape check rejects a falsy uid first |
| IngestFacts.RunLogsEachMessage | main.js:30-56 | Over a sequence of callback runs (the fold `Ingest.Run`), each run logs exactly one entry, in arrival order, and that entry depends on its payload alone. No failure escapes or disturbs the next run |
| IngestFacts.RunWritesEachAccepted | main.js:49 | Over a sequence of callback runs, the points written are exactly those the accepted payloads produce, in arrival order |
| IngestFacts.RunWritesAtMostOnePerMessage | main.js:49 | n callback runs add exactly n log entries and at most n points |
| Examples.ExampleReadingWritten | main.js:40-52 | The reading from B0:A7:32:DB:61:18 with humidity 35 and temperature 25.8 becomes one point with exactly those two fields, and is acknowledged |
| Examples.ExampleStringValueRejected | dto/SensorDto.js:62-63 | The same reading with value `"35"` is rejected as "Measurement value must be a number", and nothing is written |
| Examples.ExampleBadDateRejected | dto/SensorDto.js:28-29 | The same reading with `at` = `not-a-date` is rejected as "Invalid timestamp" |
| Examples.RepeatedTypeKeepsLater | main.js:44-46 | Two `temperature` items, 20 then 21.5, yield one field `temperature` = 21.5 |
| Examples.EmptyDataWritten | dto/SensorDto.js:30-34 | A reading with an empty `data` array passes and is handed to `writePoint` as a point with no fields |
| Examples.ToStringAtRejected | dto/SensorDto.js:15-16 | The payload `{"uid":"u","at":{"toString":0},"data":[null]}` is rejected with the conversion error of `new Date(at)`, not the null item's read |
| Examples.ArrayTypeSharesField | main.js:44-46 | Items with types `"temperature"` (20) and `["temperature"]` (21.5) write one field `temperature` = 21.5 |
| Examples.ToStringUidWrittenButLogged | main.js:49-52 | A reading with uid `{"toString":0}` is handed to `writePoint`, and the conversion error of the success line is logged |
| Examples.ValueCheckIsTypeof | dto/SensorDto.js:46-63 | The value check is `typeof`, not truthiness: the string `"35"` fails and the number `0` passes |

## Left out

- MQTT connection, subscription and event wiring (main.js:19, main.js:26-30). This is network client plumbing. `Ingest.Run` takes one callback run per element of its sequence, not one per MQTT delivery. The program adds the `"message"` listener inside the `'connect'` handler, so each reconnection adds one more listener. After k reconnections, one delivered payload runs the callback k+1 times, which logs k+1 entries and can write k+1 points. The stream lemmas count callback runs.
- InfluxDB client creation, write buffering, flushing and `close()` (main.js:22-23, main.js:62). These belong to a foreign library. `writePoint` is modelled as appending to `Sink.written` and never failing.
- InfluxDB `Point`/`floatField` internals, including line-protocol encoding and the finiteness check on field values. That library code is not part of this model. A point is a record and `floatField` is a map update.
- A field key of `__proto__`. The library stores fields in a plain object, where this key would not become an ordinary field. The model treats it as an ordinary key.
- Configuration loading through dotenv and environment variables (main.js:1, main.js:7-16). This is configuration I/O.
- SIGINT shutdown (main.js:60-66). This is process and async plumbing.
- The semantics of `JSON.parse`, of `new Date(v)` / ISO-8601 parsing, and of number-to-string formatting. These are host built-ins, passed in as the `Host` functions. The timestamp needs only one parse: `new Date(sensorData.at)` at main.js:42 receives the `Date` built at dto/SensorDto.js:15 and copies its time value, so the point carries the stored `Instant` unchanged.
- Floating point. `Num` is a mathematical real. NaN, infinities and `-0` do not arise, including an `Infinity` from an oversized JSON number.
- Log formatting and the wall-clock time in the success log (main.js:52). `Acknowledged` records only the uid. `Errors.Error.Message` gives the code's own error texts. The wording of engine-raised TypeErrors and SyntaxErrors is not modelled.
- Ingest.Handle: does not promise that a written point is acknowledged. The success line at main.js:52 converts the uid after `writePoint` (main.js:49) and can throw, so a point can be written while an error is logged. `IngestFacts.HandleWritesPointOf` states exactly when this happens.
- What `writePoint` does with the point it receives: line-protocol encoding, including the conversion of the tag value, and any dropping of a point without fields. This is library code that is not part of this model. `Sink.written` holds every point handed to `writePoint`.
- Inherited properties. Reading a property of a non-object gives `undefined` in the model. For arrays and strings, `at` is really a built-in method. This changes no outcome, because such a payload has no `uid` and no `data`.
