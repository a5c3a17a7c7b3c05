/** Short client sessions against the hub, each stating what the caller observes: the results
    of its calls and the registry, counter and transport calls they leave behind. */
module Scenarios {
  import opened Text
  import opened JsValues
  import opened Outcomes
  import opened Channels
  import opened Config
  import opened PubSub

  /** A transporter object that offers all four operations. */
  function FullTransporter(): Value {
    Object(map["connect" := Function(1), "publish" := Function(2),
               "subscribe" := Function(3), "unsubscribe" := Function(4)])
  }

  /** The configuration with only a full transporter. */
  function PlainConfig(): Value {
    Object(map["transporter" := FullTransporter()])
  }

  /** A fresh hub after a successful initialize with the plain configuration. */
  method Connected() returns (hub: Hub)
    ensures fresh(hub) && hub.Valid() && hub.RefCounted()
    ensures hub.bound && hub.pubPrefix == None && hub.subPrefix == None
    ensures hub.registry == map[] && hub.counter == map[] && hub.handed == {} && hub.trace == [CallConnect]
  {
    hub := new Hub();
    assert forall op :: Provides(FullTransporter(), op);
    assert Get(PlainConfig(), "channelPrefix") == Undefined;
    var ok := hub.Initialize(PlainConfig(), false);
  }

  /** A subscribe before initialize fails on the transport stub, yet it leaves an empty entry
      with count 0 for the channel behind and hands out nothing. */
  method SubscribeBeforeInitialize() returns (r: Result<Subscription>, entry: map<string, Handler>, count: Tally)
    ensures r == Err(MissingTransporter(OpSubscribe))
    ensures entry == map[] && count == Count(0)
  {
    var hub := new Hub();
    StringArgOfWellFormed("news");
    r := hub.Subscribe(Str("news"), Function(10), "id-1", false);
    entry := hub.registry["news"];
    count := hub.counter["news"];
  }

  /** Publish rejects a blank channel, a channel that is not a string and falsy data before
      any transport call. */
  method PublishRejects() returns (blank: Outcome, notString: Outcome, noData: Outcome)
    ensures blank == Fail(WrongParameter(ChannelParam)) && notString == Fail(WrongParameter(ChannelParam))
    ensures noData == Fail(MissingParameter(DataParam))
  {
    var hub := Connected();
    StringArgOfWellFormed("x");
    assert AllSpace(" \t");
    blank := hub.Publish(Str(" \t"), Str("data"), false);
    notString := hub.Publish(Number(5), Str("data"), false);
    noData := hub.Publish(Str("x"), Number(0), false);
    assert hub.trace == [CallConnect];
  }

  /** Before initialize, a valid publish fails on the transport stub. */
  method PublishBeforeInitialize() returns (r: Outcome)
    ensures r == Fail(MissingTransporter(OpPublish))
  {
    var hub := new Hub();
    StringArgOfWellFormed("x");
    r := hub.Publish(Str("x"), Str("data"), false);
  }

  /** Initialize reports the first failing check and changes nothing: a config that is not an
      object, a missing transporter, a transporter without subscribe; the hub stays unbound. */
  method InitializeRejects() returns (notObject: Outcome, noTransporter: Outcome, noSubscribe: Outcome,
                                      bound: bool)
    ensures notObject == Fail(MissingParameter(ConfigParam))
    ensures noTransporter == Fail(ConfigError(TransporterField))
    ensures noSubscribe == Fail(ConfigError(FunctionField(OpSubscribe)))
    ensures !bound
  {
    var hub := new Hub();
    var partial := Object(map["connect" := Function(1), "publish" := Function(2), "unsubscribe" := Function(4)]);
    assert !Provides(partial, OpSubscribe);
    assert CheckConfig(Object(map["transporter" := partial])) == Fail(ConfigError(FunctionField(OpSubscribe)));
    notObject := hub.Initialize(Str("config"), false);
    noTransporter := hub.Initialize(Object(map[]), false);
    noSubscribe := hub.Initialize(Object(map["transporter" := partial]), false);
    bound := hub.bound;
  }
}
