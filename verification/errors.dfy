/** The errors the ingestion pipeline can raise and then catch. */
module Errors {
  import opened Wrappers

  datatype Error =
    /** `JSON.parse` rejected the payload (a SyntaxError). */
    | SyntaxError
    /** A property read on `null` or `undefined` (a TypeError). */
    | CannotRead(key: string)
    /** A call of a property that is not a function (a TypeError). */
    | NotAFunction(name: string)
    /** A value that cannot be converted to a primitive (a TypeError). */
    | NoPrimitive
    | InvalidMessageFormat
    | UidRequired
    | InvalidTimestamp
    | TypeRequired
    | ValueNotNumber
    | UnitRequired
  {
    /** The errors the JS engine raises, as opposed to those the code throws itself. */
    predicate IsEngineError() {
      SyntaxError? || CannotRead? || NotAFunction? || NoPrimitive?
    }

    /**
     * The `message` of the errors the code raises itself; None for the
     * errors the JS engine raises, whose wording belongs to the engine.
     */
    function Message(): (r: Option<string>)
      ensures r.None? <==> IsEngineError()
      ensures r.Some? ==> |r.value| > 0
    {
      match this
      case InvalidMessageFormat => Some("Invalid message format")
      case UidRequired => Some("UID is required")
      case InvalidTimestamp => Some("Invalid timestamp")
      case TypeRequired => Some("Measurement type is required")
      case ValueNotNumber => Some("Measurement value must be a number")
      case UnitRequired => Some("Measurement unit is required")
      case _ => None
    }
  }

  /** The logged message of an error the code raises itself names that error alone. */
  lemma MessageIdentifiesError(e1: Error, e2: Error)
    requires e1.Message().Some? && e1.Message() == e2.Message()
    ensures e1 == e2
  {
  }
}
