/** The validation initialize performs on its configuration before changing anything. */
module Config {
  import opened JsValues
  import opened Outcomes

  /** The property name of each transport operation. */
  function OpName(op: TransportOp): string {
    match op
    case OpConnect => "connect"
    case OpPublish => "publish"
    case OpSubscribe => "subscribe"
    case OpUnsubscribe => "unsubscribe"
  }

  /** The position of each operation in the order initialize checks them. */
  function Rank(op: TransportOp): nat {
    match op
    case OpConnect => 0
    case OpPublish => 1
    case OpSubscribe => 2
    case OpUnsubscribe => 3
  }

  /** `config.transporter`, for a config that is an object. */
  function Transporter(config: Value): Value
    requires config.Object?
  {
    Get(config, "transporter")
  }

  /** `typeof transporter[op] === 'function'`, for a transporter that is an object. */
  predicate Provides(transporter: Value, op: TransportOp)
    requires transporter.Object?
  {
    Get(transporter, OpName(op)).Function?
  }

  /** The configuration initialize accepts. */
  predicate Acceptable(config: Value) {
    && config.Object?
    && Transporter(config).Object?
    && forall op :: Provides(Transporter(config), op)
  }

  /** Checks the configuration in the source's fixed order (config, transporter, then connect,
      publish, subscribe, unsubscribe) and reports the first check that fails. */
  function CheckConfig(config: Value): (r: Outcome)
    ensures r.Pass? <==> Acceptable(config)
    ensures !IsObjectType(config) ==> r == Fail(MissingParameter(ConfigParam))
    ensures config.Null? ==> r == Fail(TypeError)
    ensures config.Object? && !IsObjectType(Transporter(config)) ==> r == Fail(ConfigError(TransporterField))
    ensures config.Object? && Transporter(config).Null? ==> r == Fail(TypeError)
    ensures r.Fail? && r.error.ConfigError? && r.error.field.FunctionField? ==>
      && config.Object? && Transporter(config).Object?
      && !Provides(Transporter(config), r.error.field.op)
      && forall op :: Rank(op) < Rank(r.error.field.op) ==> Provides(Transporter(config), op)
    ensures config.Object? && Transporter(config).Object? && !Acceptable(config) ==>
      r.Fail? && r.error.ConfigError? && r.error.field.FunctionField?
    ensures r.Fail? ==> r.error.MissingParameter? || r.error.TypeError? || r.error.ConfigError?
  {
    if !IsObjectType(config) then Fail(MissingParameter(ConfigParam))
    else if config.Null? then Fail(TypeError)
    else
      var t := Transporter(config);
      if !IsObjectType(t) then Fail(ConfigError(TransporterField))
      else if t.Null? then Fail(TypeError)
      else if !Provides(t, OpConnect) then Fail(ConfigError(FunctionField(OpConnect)))
      else if !Provides(t, OpPublish) then Fail(ConfigError(FunctionField(OpPublish)))
      else if !Provides(t, OpSubscribe) then Fail(ConfigError(FunctionField(OpSubscribe)))
      else if !Provides(t, OpUnsubscribe) then Fail(ConfigError(FunctionField(OpUnsubscribe)))
      else Pass
  }
}
