# pub-sub hub, modelled in Dafny

The hub is a transport-agnostic publish/subscribe facade (`index.js`). Application code calls
`initialize(config)`, `publish(channel, data)` and `subscribe(channel, handler)`; every network
action goes through a transporter object with four operations (connect, publish, subscribe,
unsubscribe) supplied at initialization. Inside the hub sit:
- a subscription registry that maps each channel to its handlers by handler id;
- a per-channel subscription counter;
- optional publish/subscribe channel prefixes;
- the dispatcher handed to `transporter.connect`.

The model:

- `text.dfy` (module `Text`): JavaScript's `String.prototype.trim` over `seq<char>`, using the
  ECMAScript white-space set. It proves that trim is unique, idempotent, ignores padding, and
  that a string is blank exactly when it is all white space.
- `values.dfy` (modules `JsValues`, `Outcomes`): the JavaScript values the hub inspects
  (`typeof`, truthiness, own properties), and the errors the hub throws as a `Failure` datatype.
- `channels.dfy` (module `Channels`): the shared channel-argument check, the way prefixes are
  put on and stripped off wire channels, and the channel-prefix part of `initialize`.
- `config.dfy` (module `Config`): the ordered validation of the configuration by `initialize`.
- `hub.dfy` (module `PubSub`): class `Hub`, whose fields are the module state of `index.js`:
  - `pubPrefix`, `subPrefix` (`prefix.pub`, `prefix.sub`);
  - `bound` (whether the "Missing Transporter" stubs have been replaced);
  - `registry` (`subscriptionRegistry`);
  - `counter` (`subscriptionCounter`);
  - the ghost `trace`, every call made on the bound transport;
  - the ghost `handed`, every closure that `subscribe` has returned, as (channel, handler id).

  Its methods are `initialize`, `publish`, `subscribe` and the returned closure (`Release`),
  `_unsubscribe` (`Unsubscribe`) and `_dataHandler` (`Dispatch`).
- `scenarios.dfy` (module `Scenarios`): short client sessions with concrete arguments and
  their observable results.

Two behaviours of the code are modelled as written:

- **The decrement uses the wrong key.** `_unsubscribe` decrements
  `subscriptionCounter[handlerId]`, not `subscriptionCounter[channel]` (index.js:64). So a
  channel's count never goes down when a closure is called. The teardown test at index.js:66
  never fires for a channel that has a handed-out subscription. The transport is never
  unsubscribed, and the registry entry stays.
  - `CountedAfterRelease` and `Hub.Release` prove this under the invariant `Counted`.
  - `Counted` assumes no handed-out handler id is also a registered channel name.

  The evident intent is reference counting: a channel is torn down, with exactly one transport
  unsubscribe, when its last handler leaves. The code never does this. This model follows the code.
- **The first subscribe is not atomic.** On the first subscribe for a channel, the entry and a
  zero count are stored before `transporter.subscribe` is called (index.js:148-151). If that
  call throws, for example on the stub before `initialize`, the empty entry stays. A later
  subscribe on the channel then skips the transport subscribe.
  - `Hub.SubscribeStep` and `Scenarios.SubscribeBeforeInitialize` state this.

  The evident intent is an all-or-nothing first subscribe, which stores nothing when the
  transport subscribe fails. This model follows the code.

How the model handles inputs it cannot see:

- Calls into the transporter are parameters. A call on a stub (before `initialize`) fails with
  `MissingTransporter`. After `initialize`, a bound operation fails with `TransportFault`
  exactly when the caller-chosen `fault` flag is set.
- The id that `uuid()` would generate is a parameter `id` of `Subscribe`, constrained by
  `Hub.FreshId`.
- A `null` config, or a `null` `channelPrefix`, makes the source read a property of null. That
  is modelled as a `TypeError` failure.

## Model

| member | source | states |
|---|---|---|
| Text.Trim | index.js:59-60 | the result is the piece of the input left after removing leading and trailing white space: it is trimmed at both ends, and only white space lies before and after it |
| Text.TrimUnique | index.js:59-60 | any trimmed piece cut out of a string by dropping only white space at its two ends is what trim returns |
| Text.TrimOfTrimmed | index.js:59-60 | trim leaves a string with no white space at either end unchanged |
| Text.TrimIdempotent | index.js:145 | trimming twice is the same as trimming once |
| Text.BlankIffAllSpace | index.js:52 | `s.trim() === ''` holds exactly when every character of `s` is white space |
| Text.TrimIgnoresPadding | index.js:145 | white space added around a channel name does not change its trimmed form |
| JsValues.FalsyValues | index.js:124 | `!data`, modelled by the predicate `JsValues.Truthy`, rejects exactly undefined, null, false, 0, NaN and the empty string |
| Channels.StringArg | index.js:138-145 | a value passes the channel check exactly when it is a string that is not all white space; the name used is its trimmed form, which is non-empty and trimmed |
| Channels.StringArgOfWellFormed | index.js:52-60 | a non-empty trimmed name passes the check unchanged, so the names a closure captured pass `_unsubscribe`'s checks |
| Channels.StringArgIgnoresPadding | index.js:121-128 | padding a channel name with white space does not change whether it passes or which name is used |
| Channels.WireName | index.js:130 | without a prefix the wire channel is the channel; with one it is the prefix followed by the channel, so its length is their summed length |
| Channels.StripPrefix | index.js:37-39 | with a sub prefix the dispatcher drops as many leading characters as the prefix has, without comparing them; a shorter wire channel gives the empty channel; with no prefix the channel is kept |
| Channels.StripWireName | index.js:37-39 | stripping undoes prefixing: a message on a channel's wire name reaches that channel |
| Channels.StripIgnoresPrefixText | index.js:37-39 | wire channels that differ only in their first prefix-length characters reach the same channel |
| Channels.ResolvePrefixes | index.js:102-111 | a non-blank string sets both prefixes to its trimmed value; an object sets each of pub and sub from its own non-blank field, keeping the old value otherwise; null fails with a TypeError; anything else keeps both; set prefixes are non-empty and trimmed |
| Config.CheckConfig | index.js:77-95 | the config passes exactly when it is an object whose transporter is an object with all four functions; otherwise the first failing check in source order is reported: no object, then no transporter object, then the first missing function in the order connect, publish, subscribe, unsubscribe |
| PubSub.TransportOutcome | index.js:14-27 | a transport call succeeds exactly when the transporter is bound and does not throw; before binding it fails with the "Missing Transporter" error of that operation |
| PubSub.Debited | index.js:64 | `counter[key] -= 1` lowers a numeric entry by one, turns a missing or NaN entry into NaN, and changes no other key |
| PubSub.DrainedAfterDebit | index.js:64-66 | the teardown test `subscriptionCounter[channel] < 1` (the predicate `PubSub.Drained`, false for a missing entry and for NaN) is unchanged for every key other than the debited one; a missing key that is debited becomes NaN and is never drained; a numeric key is drained after the debit exactly when it was below 2 |
| PubSub.CountedAfterOpen | index.js:148-150 | creating the entry and zero count of a new channel that is no handed-out id keeps the counting invariant |
| PubSub.CountedAfterAdd | index.js:154-155 | adding a fresh handler and one to its channel's count keeps the counting invariant |
| PubSub.CountedAfterRelease | index.js:62-70 | calling a handed-out closure removes only its own handler and leaves every registered channel's count as it was; its channel is never found below one, so it is not torn down; the counting invariant is kept |
| PubSub.Hub.constructor | index.js:9-30 | the module starts with null prefixes, stub transport, empty registry and counter, and no transport call made |
| PubSub.Hub.Initialize | index.js:77-114 | an unacceptable config fails with the first failing check and changes nothing; otherwise the transport is bound, then the prefixes are resolved (a TypeError stops there), then connect is called, as the last transport call |
| PubSub.Hub.Publish | index.js:120-131 | a bad channel or falsy data fails with no transport call; otherwise exactly one transport publish, on the pub prefix plus the trimmed channel, carrying the data |
| PubSub.Hub.Subscribe | index.js:137-160 | a bad channel or a handler that is no function fails with no change; otherwise `SubscribeStep` holds (see the next rows) and the counting invariant is kept |
| PubSub.Hub.Register | index.js:145-158 | after the argument checks: the first subscribe on a channel makes exactly one transport subscribe and later ones none; on success exactly one new handler under the fresh id and one more count on that channel, other channels unchanged; when the transport subscribe fails, the channel is left with an empty entry and count 0 |
| PubSub.Hub.RegisterFirst | index.js:148-155 | a subscribe on a channel without an entry: one transport subscribe on the sub-prefixed wire name; on failure an empty entry with count 0 stays; on success the channel holds just the new handler with count 1 |
| PubSub.Hub.Open | index.js:148-151 | the entry and zero count are stored before transport subscribe is called |
| PubSub.Hub.AddHandler | index.js:154-155 | the handler is stored under an id new to its channel, the channel gains exactly one handler and one count, and the closure's subscription is handed out |
| PubSub.Hub.Unsubscribe | index.js:51-60 | a bad channel or handler id fails with WrongParameter and changes nothing; otherwise `_unsubscribe`'s state change holds, the handler is gone from the channel, and that channel is not left registered with a count below one |
| PubSub.Hub.Detach | index.js:62-70 | removes the handler if present and decrements the counter under the handler id; if the channel's count is then below one, deletes its entry and count and calls transport unsubscribe on the wire name |
| PubSub.Hub.Release | index.js:158 | calling the closure never fails on its arguments and removes its own handler; under the counting invariant it succeeds, makes no transport call, removes exactly that handler, and changes no registered channel's count, also when called again |
| PubSub.Hub.Dispatch | index.js:36-49 | the handlers called are exactly those registered on the stripped channel, each once, each with (stripped channel, data); the registry is only read |
| Scenarios.SubscribeBeforeInitialize | index.js:148-151 | a subscribe before initialize fails on the transport stub and leaves an empty entry with count 0 |
| Scenarios.PublishRejects | index.js:120-126 | a blank channel, a non-string channel and falsy data are each rejected with their own error |
| Scenarios.PublishBeforeInitialize | index.js:18-20 | a valid publish before initialize fails on the publish stub |
| Scenarios.InitializeRejects | index.js:77-95 | a non-object config, a missing transporter and a transporter without subscribe are each rejected with their own error, and the hub stays unbound |

## Left out

- `uuid()`: replaced by the `id` parameter of `Subscribe` and the precondition `FreshId`. The precondition says the id is a non-empty trimmed string that is new and is not the channel's name. Random generation and collisions are not modelled.
- The transporter's own behaviour: connection, network and message delivery. Each transport call is one `trace` event, and whether it throws is the `fault` parameter. An asynchronous `connect` and the value it returns are not modelled.
- Handler bodies: `Dispatch` returns the calls it makes instead of making them. A handler that throws, or that subscribes or unsubscribes while the loop is running, is not modelled.
- Channels.StripPrefix: lengths count Unicode code points (Dafny's `char`), whereas `substring` and `length` count UTF-16 code units. A prefix or wire channel containing a character outside the Basic Multilingual Plane is therefore stripped differently. For example, sub prefix "p" on wire channel "\u{1F600}x" gives "x" here, but a lone surrogate followed by "x" in JavaScript.
- Dispatch order: `for...in` visits ids in insertion order. The model fixes only the multiset of calls, not their order.
- `Hub.Dispatch`: the channel comes in as a string. A non-string channel from the transport is not modelled.
- Property lookups through the prototype chain are not modelled. Examples: a channel named `constructor`, or `hasOwnProperty` at index.js:43. The registry is a map of own keys.
- JavaScript numbers: modelled as integers plus NaN. Fractional values and `-0` are not modelled.
- The counter entry that `subscriptionCounter[handlerId] -= 1` creates is the `NotANumber` marker.
- Calling `initialize` again: the model does what the code does (rebinds, re-resolves the prefixes, connects again). The behaviour of a real transport connected twice is out of scope.
- Concurrency: the hub is modelled as single-threaded, as on the JavaScript event loop.
- Logging: the hub does no logging, and none is modelled.
- `PubSub.Counted`: states that each channel's count is at least its number of live handlers, and at least one for each channel with a handed-out subscription. It does not state that the count equals the number of successful subscribes on that channel.
- `PubSub.Counted`: relies on no handed-out handler id being the name of a registered channel. The random ids make that practically certain, but the code does not check it.
