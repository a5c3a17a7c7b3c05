/** Channel-name handling: the argument check shared by publish, subscribe and unsubscribe,
    the publish/subscribe prefixes, and how they are put on and taken off wire channels. */
module Channels {
  import opened Text
  import opened JsValues
  import opened Outcomes

  /** A name the hub accepts as a channel or handler id: non-empty and trimmed. */
  predicate WellFormedName(x: string) {
    x != "" && Trimmed(x)
  }

  /** The check `typeof v !== 'string' || v.trim() === ''` and the `v.trim()` after it:
      the trimmed string when `v` is a string that is not all white space. */
  function StringArg(v: Value): (r: Option<string>)
    ensures r.Some? <==> v.Str? && !AllSpace(v.s)
    ensures r.Some? ==> r.value == Trim(v.s) && WellFormedName(r.value) && Trim(r.value) == r.value
  {
    if v.Str? then
      BlankIffAllSpace(v.s);
      TrimIdempotent(v.s);
      if IsBlank(v.s) then None else Some(Trim(v.s))
    else None
  }

  /** An already well-formed name passes the check unchanged. */
  lemma StringArgOfWellFormed(x: string)
    requires WellFormedName(x)
    ensures StringArg(Str(x)) == Some(x)
  {
    TrimOfTrimmed(x);
  }

  /** White space around a name does not change what the check yields. */
  lemma StringArgIgnoresPadding(before: string, x: string, after: string)
    requires AllSpace(before) && AllSpace(after)
    ensures StringArg(Str(before + x + after)) == StringArg(Str(x))
  {
    TrimIgnoresPadding(before, x, after);
    BlankIffAllSpace(before + x + after);
    BlankIffAllSpace(x);
  }

  /** What a prefix field may hold once set: a non-empty trimmed string, or nothing (null). */
  predicate PrefixOk(p: Option<string>) {
    p.Some? ==> WellFormedName(p.value)
  }

  /** `(prefix ? prefix : '') + channel`: the wire channel for a logical channel. */
  function WireName(prefix: Option<string>, channel: string): (w: string)
    ensures prefix.None? ==> w == channel
    ensures prefix.Some? ==>
      |w| == |prefix.value| + |channel| && w[..|prefix.value|] == prefix.value && w[|prefix.value|..] == channel
  {
    if prefix.Some? then prefix.value + channel else channel
  }

  /** `if (prefix.sub) channel = channel.substring(prefix.sub.length)`: drops as many leading
      characters as the prefix is long, whatever they are; a shorter wire channel yields "". */
  function StripPrefix(prefix: Option<string>, wire: string): (c: string)
    ensures prefix.None? ==> c == wire
    ensures prefix.Some? && |prefix.value| <= |wire| ==> c == wire[|prefix.value|..]
    ensures prefix.Some? && |wire| < |prefix.value| ==> c == ""
    ensures |c| <= |wire|
  {
    if prefix.None? then wire
    else if |prefix.value| <= |wire| then wire[|prefix.value|..]
    else ""
  }

  /** Stripping undoes prefixing: a message on the wire name of a channel reaches that channel. */
  lemma StripWireName(prefix: Option<string>, channel: string)
    ensures StripPrefix(prefix, WireName(prefix, channel)) == channel
  {
  }

  /** Stripping does not look at the characters it drops: two wire channels that differ only
      in their first |prefix| characters reach the same logical channel. */
  lemma StripIgnoresPrefixText(prefix: string, other: string, channel: string)
    requires |other| == |prefix|
    ensures StripPrefix(Some(prefix), other + channel) == StripPrefix(Some(prefix), prefix + channel) == channel
  {
  }

  /** The publish-side and subscribe-side prefixes (`prefix.pub`, `prefix.sub`). */
  datatype Prefixes = Prefixes(pub: Option<string>, sub: Option<string>)

  /** The prefix configuration step of initialize: a non-blank string sets both prefixes to its
      trimmed value; an object sets `pub` and `sub` each from its own field when that field is a
      non-blank string; null fails with a TypeError (its fields are read); anything else keeps
      the current prefixes. */
  function ResolvePrefixes(channelPrefix: Value, current: Prefixes): (r: Result<Prefixes>)
    ensures channelPrefix.Str? && !AllSpace(channelPrefix.s) ==>
      r == Ok(Prefixes(Some(Trim(channelPrefix.s)), Some(Trim(channelPrefix.s))))
    ensures channelPrefix.Null? <==> r.Err?
    ensures r.Err? ==> r.error == TypeError
    ensures channelPrefix.Object? ==>
      && r.Ok?
      && r.value.pub == (if StringArg(Get(channelPrefix, "pub")).Some? then StringArg(Get(channelPrefix, "pub")) else current.pub)
      && r.value.sub == (if StringArg(Get(channelPrefix, "sub")).Some? then StringArg(Get(channelPrefix, "sub")) else current.sub)
    ensures !channelPrefix.Str? && !IsObjectType(channelPrefix) ==> r == Ok(current)
    ensures channelPrefix.Str? && AllSpace(channelPrefix.s) ==> r == Ok(current)
    ensures r.Ok? && PrefixOk(current.pub) && PrefixOk(current.sub) ==> PrefixOk(r.value.pub) && PrefixOk(r.value.sub)
  {
    match StringArg(channelPrefix)
    case Some(p) => Ok(Prefixes(Some(p), Some(p)))
    case None =>
      if channelPrefix.Null? then Err(TypeError)
      else if channelPrefix.Object? then
        var pub := StringArg(Get(channelPrefix, "pub"));
        var sub := StringArg(Get(channelPrefix, "sub"));
        Ok(Prefixes(if pub.Some? then pub else current.pub, if sub.Some? then sub else current.sub))
      else Ok(current)
  }
}
