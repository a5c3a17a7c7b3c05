/** The publish/subscribe hub: the module-level state of the source (prefixes, transport
    binding, subscription registry and counter) as the fields of one object, and its
    operations initialize, publish, subscribe, the unsubscribe closure and the dispatcher. */
module PubSub {
  import opened Text
  import opened JsValues
  import opened Outcomes
  import opened Channels
  import opened Config

  /** A call the hub makes on the bound transport. */
  datatype Event =
    | CallConnect
    | CallPublish(wire: string, data: Value)
    | CallSubscribe(wire: string)
    | CallUnsubscribe(wire: string)

  /** One handler call made by the dispatcher: the handler registered under `id`, called
      with `(channel, data)`. */
  datatype Invocation = Invoke(id: string, handler: Handler, channel: string, data: Value)

  /** What the closure returned by subscribe captures: the trimmed channel and the handler id. */
  datatype Subscription = Subscription(channel: string, id: string)

  /** A value stored in the subscription counter: a number, or the NaN that `undefined - 1`
      leaves behind. */
  datatype Tally = Count(n: int) | NotANumber

  /** How a call on a transport operation ends: the stub throws before initialize; after it,
      the bound operation is called and `fault` says whether it threw. */
  function TransportOutcome(op: TransportOp, bound: bool, fault: bool): (r: Outcome)
    ensures r.Pass? <==> bound && !fault
    ensures r.Fail? ==> r.error == (if bound then TransportFault(op) else MissingTransporter(op))
  {
    if !bound then Fail(MissingTransporter(op))
    else if fault then Fail(TransportFault(op))
    else Pass
  }

  /** The handler ids of a sequence of invocations, in order. */
  function IdsOf(calls: seq<Invocation>): seq<string> {
    seq(|calls|, i requires 0 <= i < |calls| => calls[i].id)
  }

  /** The counter after `subscriptionCounter[key] -= 1`: a number goes down by one, a missing
      entry (undefined) or NaN becomes NaN, and no other entry changes. */
  function Debited(counter: map<string, Tally>, key: string): (r: map<string, Tally>)
    ensures r.Keys == counter.Keys + {key}
    ensures forall k :: k in counter && k != key ==> r[k] == counter[k]
    ensures key in counter && counter[key].Count? ==> r[key] == Count(counter[key].n - 1)
    ensures !(key in counter && counter[key].Count?) ==> r[key] == NotANumber
  {
    counter[key := if key in counter && counter[key].Count? then Count(counter[key].n - 1) else NotANumber]
  }

  /** The teardown test `subscriptionCounter[channel] < 1`, false for undefined and for NaN. */
  predicate Drained(counter: map<string, Tally>, channel: string) {
    channel in counter && counter[channel].Count? && counter[channel].n < 1
  }

  /** Debiting a handler id leaves the teardown test of every other key as it was, and a
      missing key debited becomes NaN, which the test never finds below one. So as long as a
      handler id is not also a channel name, `_unsubscribe` cannot drain a channel by itself. */
  lemma DrainedAfterDebit(counter: map<string, Tally>, key: string, channel: string)
    ensures channel != key ==> (Drained(Debited(counter, key), channel) <==> Drained(counter, channel))
    ensures key !in counter ==> !Drained(Debited(counter, key), key)
    ensures key in counter && counter[key].Count? ==>
      (Drained(Debited(counter, key), key) <==> counter[key].n < 2)
  {
  }

  /** The handler ids among a set of handed-out subscriptions. */
  ghost function Ids(handed: set<Subscription>): set<string> {
    set s | s in handed :: s.id
  }

  /** Every registered channel has a numeric count, and every live handler was registered by
      a subscribe that handed out its subscription, under a well-formed channel and id. */
  ghost predicate Coherent(registry: map<string, map<string, Handler>>, counter: map<string, Tally>,
                           handed: set<Subscription>)
  {
    && (forall c :: c in registry ==> c in counter && counter[c].Count?)
    && (forall c, k :: c in registry && k in registry[c] ==> Subscription(c, k) in handed)
    && (forall s :: s in handed ==> WellFormedName(s.channel) && WellFormedName(s.id))
  }

  /** The counting the source actually does, as long as no handed-out id is also the name of a
      registered channel: every channel a subscription was handed out on is still registered
      with a count of at least one, and every channel's count is at least its number of live
      handlers. */
  ghost predicate Counted(registry: map<string, map<string, Handler>>, counter: map<string, Tally>,
                          handed: set<Subscription>)
  {
    && Coherent(registry, counter, handed)
    && (forall s :: s in handed ==> s.id !in registry && s.channel in registry && counter[s.channel].n >= 1)
    && (forall c :: c in registry ==> |registry[c]| <= counter[c].n)
  }

  /** Opening an empty entry with a zero count for a channel keeps the registry coherent. */
  lemma CoherentAfterOpen(registry: map<string, map<string, Handler>>, counter: map<string, Tally>,
                          handed: set<Subscription>, c: string)
    requires Coherent(registry, counter, handed)
    ensures Coherent(registry[c := map[]], counter[c := Count(0)], handed)
  {
  }

  /** Adding a handler under a well-formed id to a registered well-formed channel, counting it
      and handing out its subscription keeps the registry coherent. */
  lemma CoherentAfterAdd(registry: map<string, map<string, Handler>>, counter: map<string, Tally>,
                         handed: set<Subscription>, c: string, id: string, h: Handler)
    requires Coherent(registry, counter, handed) && c in registry
    requires WellFormedName(c) && WellFormedName(id)
    ensures Coherent(registry[c := registry[c][id := h]], counter[c := Count(counter[c].n + 1)],
                     handed + {Subscription(c, id)})
  {
  }

  /** Removing a handler and debiting the counter under its id keeps the registry coherent. */
  lemma CoherentAfterRemoval(registry: map<string, map<string, Handler>>, counter: map<string, Tally>,
                             handed: set<Subscription>, c: string, k: string)
    requires Coherent(registry, counter, handed) && c in registry
    ensures Coherent(registry[c := registry[c] - {k}], Debited(counter, k), handed)
  {
  }

  /** Deleting a channel from both the registry and the counter keeps the registry coherent. */
  lemma CoherentAfterTeardown(registry: map<string, map<string, Handler>>, counter: map<string, Tally>,
                              handed: set<Subscription>, c: string)
    requires Coherent(registry, counter, handed)
    ensures Coherent(registry - {c}, counter - {c}, handed)
  {
  }

  /** Opening an entry for a new channel that is no handed-out id keeps the counting: nothing
      was handed out on that channel yet, so its count 0 is right. */
  lemma CountedAfterOpen(registry: map<string, map<string, Handler>>, counter: map<string, Tally>,
                         handed: set<Subscription>, c: string)
    requires c !in registry && c !in Ids(handed)
    ensures Counted(registry, counter, handed) ==> Counted(registry[c := map[]], counter[c := Count(0)], handed)
  {
    if !Counted(registry, counter, handed) {
      return;
    }
    forall s | s in handed ensures s.id != c {
      assert s.id in Ids(handed);
    }
  }

  /** An id never handed out is not registered under any channel, so adding it grows that
      channel's handler map by exactly one. */
  lemma FreshIdIsNew(registry: map<string, map<string, Handler>>, counter: map<string, Tally>,
                     handed: set<Subscription>, c: string, id: string, h: Handler)
    requires Coherent(registry, counter, handed) && c in registry && id !in Ids(handed)
    ensures id !in registry[c] && |registry[c][id := h]| == |registry[c]| + 1
  {
    assert Subscription(c, id) !in handed;
    assert registry[c][id := h].Keys == registry[c].Keys + {id};
  }

  /** A successful subscribe with a fresh id adds one handler and one to the count of its own
      channel and keeps the counting. */
  lemma CountedAfterAdd(registry: map<string, map<string, Handler>>, counter: map<string, Tally>,
                        handed: set<Subscription>, c: string, id: string, h: Handler)
    requires Coherent(registry, counter, handed) && c in registry
    requires WellFormedName(c) && WellFormedName(id)
    requires id !in Ids(handed) && id !in registry && id != c
    ensures Counted(registry, counter, handed) ==>
      Counted(registry[c := registry[c][id := h]], counter[c := Count(counter[c].n + 1)],
              handed + {Subscription(c, id)})
  {
    if !Counted(registry, counter, handed) {
      return;
    }
    var registry' := registry[c := registry[c][id := h]];
    var counter' := counter[c := Count(counter[c].n + 1)];
    FreshIdIsNew(registry, counter, handed, c, id, h);
    CoherentAfterAdd(registry, counter, handed, c, id, h);
    assert registry'.Keys == registry.Keys;
    forall t | t in handed ensures t.id !in registry' {
      assert t.id !in registry;
    }
  }

  /** Opening a channel's empty entry with count 0 and then adding its first handler leaves the
      same registry and counter as storing an entry holding just that handler with count 1. */
  lemma FirstHandlerEntry(registry: map<string, map<string, Handler>>, counter: map<string, Tally>,
                          c: string, id: string, h: Handler)
    ensures registry[c := map[]][c := map[id := h]] == registry[c := map[id := h]]
    ensures counter[c := Count(0)][c := Count(1)] == counter[c := Count(1)]
  {
  }

  /** The consequence of debiting the handler id instead of the channel: calling a closure that
      subscribe returned removes its handler, leaves the count of every registered channel as it
      was, never finds its own channel's count below one, and so never tears it down. */
  lemma CountedAfterRelease(registry: map<string, map<string, Handler>>, counter: map<string, Tally>,
                            handed: set<Subscription>, s: Subscription)
    requires Counted(registry, counter, handed) && s in handed
    ensures var present := s.id in registry[s.channel];
      var registry' := if present then registry[s.channel := registry[s.channel] - {s.id}] else registry;
      var counter' := if present then Debited(counter, s.id) else counter;
      && registry' == registry[s.channel := registry[s.channel] - {s.id}]
      && !Drained(counter', s.channel)
      && registry'.Keys == registry.Keys
      && (forall c :: c in registry' ==> counter'[c] == counter[c])
      && Counted(registry', counter', handed)
  {
    var c := s.channel;
    assert s.id !in registry;
    if s.id in registry[c] {
      CoherentAfterRemoval(registry, counter, handed, c, s.id);
      assert |registry[c] - {s.id}| <= |registry[c]|;
    } else {
      assert registry[c] - {s.id} == registry[c];
    }
  }

  class Hub {
    /** `prefix.pub` and `prefix.sub`; None is null. */
    var pubPrefix: Option<string>
    var subPrefix: Option<string>
    /** Whether initialize has replaced the "Missing Transporter" stubs. */
    var bound: bool
    /** `subscriptionRegistry`: channel -> handler id -> handler. */
    var registry: map<string, map<string, Handler>>
    /** `subscriptionCounter`, keyed by channel (and, through the decrement, by handler id). */
    var counter: map<string, Tally>
    /** Every call made on the bound transport, oldest first. */
    ghost var trace: seq<Event>
    /** Every subscription a successful subscribe has returned. */
    ghost var handed: set<Subscription>

    /** The state every operation keeps. */
    ghost predicate Valid()
      reads this
    {
      PrefixOk(pubPrefix) && PrefixOk(subPrefix) && Coherent(registry, counter, handed)
    }

    /** The as-written counting of `Counted` holds of this hub. */
    ghost predicate RefCounted()
      reads this`registry, this`counter, this`handed
    {
      Counted(registry, counter, handed)
    }

    /** What `uuid()` is assumed to yield: a well-formed name that is no handler id handed out
        so far, no key of the registry or the counter, and not the channel being subscribed. */
    ghost predicate FreshId(id: string, channel: Value)
      reads this`registry, this`counter, this`handed
    {
      && WellFormedName(id)
      && id !in Ids(handed) && id !in registry && id !in counter
      && (channel.Str? ==> id != Trim(channel.s))
    }

    /** The handlers the dispatcher finds for logical channel `c`. */
    function HandlersOn(c: string): map<string, Handler>
      reads this
    {
      if c in registry then registry[c] else map[]
    }

    /** The module's initial state: null prefixes, stub transport, empty registry and counter. */
    constructor ()
      ensures Valid() && RefCounted()
      ensures pubPrefix == None && subPrefix == None && !bound
      ensures registry == map[] && counter == map[] && trace == [] && handed == {}
    {
      pubPrefix, subPrefix := None, None;
      bound := false;
      registry, counter := map[], map[];
      trace, handed := [], {};
    }

    /** initialize(config): validates the configuration and, if it is acceptable, binds the
        transport, sets the prefixes and connects, in that order. */
    method Initialize(config: Value, fault: bool) returns (r: Outcome)
      requires Valid()
      modifies this`pubPrefix, this`subPrefix, this`bound, this`trace
      ensures Valid()
      ensures old(RefCounted()) ==> RefCounted()
      ensures !Acceptable(config) ==> r == CheckConfig(config) && r.Fail? && unchanged(this)
      ensures Acceptable(config) ==>
        var p := ResolvePrefixes(Get(config, "channelPrefix"), Prefixes(old(pubPrefix), old(subPrefix)));
        && bound
        && (p.Err? ==> r == Fail(p.error) && pubPrefix == old(pubPrefix) && subPrefix == old(subPrefix) && trace == old(trace))
        && (p.Ok? ==> && pubPrefix == p.value.pub && subPrefix == p.value.sub
                      && trace == old(trace) + [CallConnect]
                      && r == (if fault then Fail(TransportFault(OpConnect)) else Pass))
    {
      r := CheckConfig(config);
      if r.Fail? {
        return;
      }
      bound := true;
      var p := ResolvePrefixes(Get(config, "channelPrefix"), Prefixes(pubPrefix, subPrefix));
      if p.Err? {
        return Fail(p.error);
      }
      pubPrefix, subPrefix := p.value.pub, p.value.sub;
      trace := trace + [CallConnect];
      r := TransportOutcome(OpConnect, bound, fault);
    }

    /** publish(channel, data): rejects a blank or non-string channel and falsy data before any
        transport call; otherwise calls transport publish once, on the prefixed trimmed channel. */
    method Publish(channel: Value, data: Value, fault: bool) returns (r: Outcome)
      modifies this`trace
      ensures StringArg(channel).None? ==> r == Fail(WrongParameter(ChannelParam)) && trace == old(trace)
      ensures StringArg(channel).Some? && !Truthy(data) ==> r == Fail(MissingParameter(DataParam)) && trace == old(trace)
      ensures StringArg(channel).Some? && Truthy(data) ==>
        && trace == old(trace) + (if bound then [CallPublish(WireName(pubPrefix, StringArg(channel).value), data)] else [])
        && r == TransportOutcome(OpPublish, bound, fault)
    {
      var name := StringArg(channel);
      if name.None? {
        return Fail(WrongParameter(ChannelParam));
      }
      if !Truthy(data) {
        return Fail(MissingParameter(DataParam));
      }
      if bound {
        trace := trace + [CallPublish(WireName(pubPrefix, name.value), data)];
      }
      r := TransportOutcome(OpPublish, bound, fault);
    }

    /** subscribe(channel, handler) with `id` standing for the generated uuid. On the first
        subscribe for a trimmed channel the registry entry and a zero count are created before
        the transport subscribe is called, and stay when that call throws. On success one entry
        is added under `id` and the channel's count goes up by one. */
    method Subscribe(channel: Value, handler: Value, id: string, fault: bool) returns (r: Result<Subscription>)
      requires Valid() && FreshId(id, channel)
      modifies this`registry, this`counter, this`trace, this`handed
      ensures Valid()
      ensures StringArg(channel).None? ==> r == Err(WrongParameter(ChannelParam)) && unchanged(this)
      ensures StringArg(channel).Some? && !handler.Function? ==> r == Err(WrongParameter(CallbackParam)) && unchanged(this)
      ensures StringArg(channel).Some? && handler.Function? ==>
        SubscribeStep(StringArg(channel).value, handler.h, id, fault, r)
      ensures old(RefCounted()) && (StringArg(channel).Some? ==> StringArg(channel).value !in old(Ids(handed))) ==> RefCounted()
    {
      var name := StringArg(channel);
      if name.None? {
        return Err(WrongParameter(ChannelParam));
      }
      if !handler.Function? {
        return Err(WrongParameter(CallbackParam));
      }
      r := Register(name.value, handler.h, id, fault);
    }

    /** The state change of subscribe once its arguments passed: when channel c is new, its
        entry and a zero count are created and transport subscribe is called (the entry stays
        if that call throws); on success handler h is added under the fresh `id` and c's count
        goes up by one. */
    twostate predicate SubscribeStep(c: string, h: Handler, id: string, fault: bool, new r: Result<Subscription>)
      requires old(Valid())
      reads this
    {
      var opens := c !in old(registry);
      var ok := !opens || (old(bound) && !fault);
      && trace == old(trace) + (if opens && old(bound) then [CallSubscribe(WireName(old(subPrefix), c))] else [])
      && (ok ==> r == Ok(Subscription(c, id)) && handed == old(handed) + {Subscription(c, id)})
      && (!ok ==>
            && r == Err(TransportOutcome(OpSubscribe, old(bound), fault).error)
            && registry == old(registry)[c := map[]]
            && counter == old(counter)[c := Count(0)]
            && handed == old(handed))
      && (opens && ok ==>
            && registry == old(registry)[c := map[id := h]]
            && counter == old(counter)[c := Count(1)])
      && (!opens ==>
            && id !in old(registry)[c]
            && registry == old(registry)[c := old(registry)[c][id := h]]
            && |registry[c]| == |old(registry)[c]| + 1
            && counter == old(counter)[c := Count(old(counter)[c].n + 1)])
    }

    /** Subscribe after its argument checks, on the trimmed channel name `c`. */
    method Register(c: string, h: Handler, id: string, fault: bool) returns (r: Result<Subscription>)
      requires Valid() && WellFormedName(c) && WellFormedName(id)
      requires id !in Ids(handed) && id !in registry && id != c
      modifies this`registry, this`counter, this`trace, this`handed
      ensures Valid()
      ensures SubscribeStep(c, h, id, fault, r)
      ensures old(RefCounted()) && c !in old(Ids(handed)) ==> RefCounted()
    {
      if c in registry {
        AddHandler(c, id, h);
        r := Ok(Subscription(c, id));
      } else {
        r := RegisterFirst(c, h, id, fault);
      }
    }

    /** Subscribe on a channel with no entry yet: open it, and add the handler if the
        transport subscribe succeeded. */
    method RegisterFirst(c: string, h: Handler, id: string, fault: bool) returns (r: Result<Subscription>)
      requires Valid() && WellFormedName(c) && WellFormedName(id)
      requires c !in registry && id !in Ids(handed) && id !in registry && id != c
      modifies this`registry, this`counter, this`trace, this`handed
      ensures Valid()
      ensures trace == old(trace) + (if bound then [CallSubscribe(WireName(subPrefix, c))] else [])
      ensures !(bound && !fault) ==>
        && r == Err(TransportOutcome(OpSubscribe, bound, fault).error)
        && registry == old(registry)[c := map[]]
        && counter == old(counter)[c := Count(0)]
        && handed == old(handed)
      ensures bound && !fault ==>
        && r == Ok(Subscription(c, id))
        && registry == old(registry)[c := map[id := h]]
        && counter == old(counter)[c := Count(1)]
        && handed == old(handed) + {Subscription(c, id)}
      ensures old(RefCounted()) && c !in old(Ids(handed)) ==> RefCounted()
    {
      ghost var reg0, cnt0 := registry, counter;
      var o := Open(c, fault);
      if o.Fail? {
        return Err(o.error);
      }
      assert registry[c] == map[];
      AddHandler(c, id, h);
      r := Ok(Subscription(c, id));
      FirstHandlerEntry(reg0, cnt0, c, id, h);
    }

    /** The first subscribe on channel `c`: an empty entry and a zero count are stored, and
        only then is transport subscribe called on the wire channel, so the entry stays when
        that call throws. */
    method Open(c: string, fault: bool) returns (o: Outcome)
      requires Valid() && c !in registry
      modifies this`registry, this`counter, this`trace
      ensures Valid()
      ensures registry == old(registry)[c := map[]] && counter == old(counter)[c := Count(0)]
      ensures trace == old(trace) + (if bound then [CallSubscribe(WireName(subPrefix, c))] else [])
      ensures o == TransportOutcome(OpSubscribe, bound, fault)
      ensures old(RefCounted()) && c !in Ids(handed) ==> RefCounted()
    {
      CoherentAfterOpen(registry, counter, handed, c);
      if c !in Ids(handed) {
        CountedAfterOpen(registry, counter, handed, c);
      }
      registry := registry[c := map[]];
      counter := counter[c := Count(0)];
      if bound {
        trace := trace + [CallSubscribe(WireName(subPrefix, c))];
      }
      o := TransportOutcome(OpSubscribe, bound, fault);
    }

    /** `subscriptionRegistry[channel][handlerId] = handler; subscriptionCounter[channel] += 1;`
        and the closure handed out for it. */
    method AddHandler(c: string, id: string, h: Handler)
      requires Valid() && c in registry && WellFormedName(c) && WellFormedName(id) && id !in Ids(handed)
      modifies this`registry, this`counter, this`handed
      ensures Valid()
      ensures registry == old(registry)[c := old(registry)[c][id := h]]
      ensures id !in old(registry)[c] && |registry[c]| == |old(registry)[c]| + 1
      ensures counter == old(counter)[c := Count(old(counter)[c].n + 1)]
      ensures handed == old(handed) + {Subscription(c, id)}
      ensures old(RefCounted()) && id !in old(registry) && id != c ==> RefCounted()
    {
      CoherentAfterAdd(registry, counter, handed, c, id, h);
      FreshIdIsNew(registry, counter, handed, c, id, h);
      if id !in registry && id != c {
        CountedAfterAdd(registry, counter, handed, c, id, h);
      }
      registry := registry[c := registry[c][id := h]];
      counter := counter[c := Count(counter[c].n + 1)];
      handed := handed + {Subscription(c, id)};
    }

    /** The state change of `_unsubscribe(c, k)` for well-formed names: remove handler k from
        channel c if present, decrement the counter under key k, then tear the channel down and
        call transport unsubscribe if c's count is below one. */
    twostate predicate UnsubscribeStep(c: string, k: string, fault: bool, r: Outcome)
      reads this
    {
      var present := c in old(registry) && k in old(registry)[c];
      var reg := if present then old(registry)[c := old(registry)[c] - {k}] else old(registry);
      var cnt := if present then Debited(old(counter), k) else old(counter);
      if Drained(cnt, c) then
        && registry == reg - {c} && counter == cnt - {c}
        && trace == old(trace) + (if old(bound) then [CallUnsubscribe(WireName(old(subPrefix), c))] else [])
        && r == TransportOutcome(OpUnsubscribe, old(bound), fault)
      else
        registry == reg && counter == cnt && trace == old(trace) && r == Pass
    }

    /** `_unsubscribe(channel, handlerId)`. Afterwards the handler is gone and the channel is
        never left registered with a count below one. */
    method Unsubscribe(channel: Value, handlerId: Value, fault: bool) returns (r: Outcome)
      requires Valid()
      modifies this`registry, this`counter, this`trace
      ensures Valid()
      ensures StringArg(channel).None? ==> r == Fail(WrongParameter(ChannelParam)) && unchanged(this)
      ensures StringArg(channel).Some? && StringArg(handlerId).None? ==> r == Fail(WrongParameter(HandlerIdParam)) && unchanged(this)
      ensures StringArg(channel).Some? && StringArg(handlerId).Some? ==>
        var c, k := StringArg(channel).value, StringArg(handlerId).value;
        && UnsubscribeStep(c, k, fault, r)
        && !Drained(counter, c)
        && (c in registry ==> k !in registry[c])
    {
      var c := StringArg(channel);
      if c.None? {
        return Fail(WrongParameter(ChannelParam));
      }
      var k := StringArg(handlerId);
      if k.None? {
        return Fail(WrongParameter(HandlerIdParam));
      }
      r := Detach(c.value, k.value, fault);
    }

    /** `_unsubscribe` after its argument checks, on the trimmed names `c` and `k`. */
    method Detach(c: string, k: string, fault: bool) returns (r: Outcome)
      requires Valid()
      modifies this`registry, this`counter, this`trace
      ensures Valid()
      ensures UnsubscribeStep(c, k, fault, r)
      ensures !Drained(counter, c)
      ensures c in registry ==> k !in registry[c]
    {
      if c in registry && k in registry[c] {
        CoherentAfterRemoval(registry, counter, handed, c, k);
        registry := registry[c := registry[c] - {k}];
        counter := Debited(counter, k);
      }
      r := Pass;
      if Drained(counter, c) {
        CoherentAfterTeardown(registry, counter, handed, c);
        registry := registry - {c};
        counter := counter - {c};
        if bound {
          trace := trace + [CallUnsubscribe(WireName(subPrefix, c))];
        }
        r := TransportOutcome(OpUnsubscribe, bound, fault);
      }
    }

    /** Calling the closure subscribe returned: `_unsubscribe(channel, handlerId)` on the names
        it captured. It never fails on its arguments and removes its own handler. As long as
        RefCounted holds, the decrement lands on the handler id instead of the channel, so the
        channel's count stays put and the teardown and transport unsubscribe are never reached. */
    method Release(s: Subscription, fault: bool) returns (r: Outcome)
      requires Valid() && s in handed
      modifies this`registry, this`counter, this`trace
      ensures Valid()
      ensures UnsubscribeStep(s.channel, s.id, fault, r)
      ensures !Drained(counter, s.channel)
      ensures s.channel in registry ==> s.id !in registry[s.channel]
      ensures !r.Fail? || !r.error.WrongParameter?
      ensures old(RefCounted()) ==>
        && RefCounted()
        && r == Pass
        && trace == old(trace)
        && registry == old(registry)[s.channel := old(registry)[s.channel] - {s.id}]
        && (forall c :: c in registry ==> counter[c] == old(counter)[c])
    {
      StringArgOfWellFormed(s.channel);
      StringArgOfWellFormed(s.id);
      if RefCounted() {
        CountedAfterRelease(registry, counter, handed, s);
      }
      r := Unsubscribe(Str(s.channel), Str(s.id), fault);
    }

    /** _dataHandler(wire, data): strips the subscribe prefix by length and calls every handler
        registered on the resulting channel exactly once, with that channel and the data. The
        registry and counter are only read. */
    method Dispatch(wire: string, data: Value) returns (calls: seq<Invocation>)
      ensures var c := StripPrefix(subPrefix, wire);
        && multiset(IdsOf(calls)) == multiset(HandlersOn(c).Keys)
        && forall i :: 0 <= i < |calls| ==>
             calls[i].id in HandlersOn(c) && calls[i] == Invoke(calls[i].id, HandlersOn(c)[calls[i].id], c, data)
    {
      var c := StripPrefix(subPrefix, wire);
      calls := [];
      if c in registry {
        var handlers := registry[c];
        var pending := handlers.Keys;
        while pending != {}
          invariant pending <= handlers.Keys
          invariant multiset(IdsOf(calls)) + multiset(pending) == multiset(handlers.Keys)
          invariant forall i :: 0 <= i < |calls| ==>
            calls[i].id in handlers && calls[i] == Invoke(calls[i].id, handlers[calls[i].id], c, data)
          decreases pending
        {
          var k :| k in pending;
          assert IdsOf(calls + [Invoke(k, handlers[k], c, data)]) == IdsOf(calls) + [k];
          assert multiset(pending) == multiset(pending - {k}) + multiset{k};
          calls := calls + [Invoke(k, handlers[k], c, data)];
          pending := pending - {k};
        }
      }
    }
  }
}
