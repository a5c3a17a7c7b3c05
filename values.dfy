/** The JavaScript values the hub's public operations receive, as far as the hub inspects them:
    their `typeof`, their truthiness and their own properties. */
module JsValues {

  /** The identity of a JavaScript function value (a subscription handler or a transport
      operation). Only identity matters: the hub never looks inside a handler. */
  type Handler = int

  /** A JavaScript value. Numbers are modelled by their integer value, plus NaN. */
  datatype Value =
    | Undefined
    | Null
    | Bool(b: bool)
    | Number(x: int)
    | NaN
    | Str(s: string)
    | Function(h: Handler)
    | Object(fields: map<string, Value>)

  /** JavaScript truthiness, the test behind `!data` and `if (x)`. */
  predicate Truthy(v: Value) {
    match v
    case Undefined => false
    case Null => false
    case Bool(b) => b
    case Number(x) => x != 0
    case NaN => false
    case Str(s) => s != ""
    case Function(_) => true
    case Object(_) => true
  }

  /** `typeof v === 'object'`, which holds for null as well. */
  predicate IsObjectType(v: Value) {
    v.Object? || v.Null?
  }

  /** Reading property `key` of a non-null value: an own property of an object, and
      `undefined` otherwise. */
  function Get(v: Value, key: string): (r: Value)
    requires !v.Null? && !v.Undefined?
    ensures v.Object? && key in v.fields ==> r == v.fields[key]
    ensures !(v.Object? && key in v.fields) ==> r == Undefined
  {
    if v.Object? && key in v.fields then v.fields[key] else Undefined
  }

  /** The values `!data` rejects are exactly JavaScript's falsy values. */
  lemma FalsyValues(v: Value)
    ensures !Truthy(v) <==> v in {Undefined, Null, Bool(false), Number(0), NaN, Str("")}
  {
  }
}

/** Option, the failures the hub raises, and the outcomes of its operations. */
module Outcomes {
  import opened JsValues

  datatype Option<T> = None | Some(value: T)

  /** The four operations of a transport binding (index.js lines 14-27). */
  datatype TransportOp = OpConnect | OpPublish | OpSubscribe | OpUnsubscribe

  /** The argument an error message names. */
  datatype Param = ConfigParam | ChannelParam | CallbackParam | HandlerIdParam | DataParam

  /** The part of the configuration a "Parameter Error" names. */
  datatype ConfigField = TransporterField | FunctionField(op: TransportOp)

  /** The errors the hub throws, by the prefix of their message. */
  datatype Failure =
    | MissingParameter(param: Param)           // "Missing Parameter: ..."
    | ConfigError(field: ConfigField)          // "Parameter Error: ..."
    | WrongParameter(param: Param)             // "Wrong Parameter: ..."
    | MissingTransporter(op: TransportOp)      // the stubs in place before initialize
    | TypeError                                // a property read on null
    | TransportFault(op: TransportOp)          // the bound transport operation threw

  /** The end of an operation that returns nothing: normal return, or a thrown error. */
  datatype Outcome = Pass | Fail(error: Failure)

  /** The end of an operation that returns a value. */
  datatype Result<T> = Ok(value: T) | Err(error: Failure)
}
