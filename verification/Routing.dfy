/** Identifier resolution and channel routing. */
module Routing {
  import opened Wrappers
  import opened Text
  import opened Events

  /** Control handle to mode, as announced. */
  type Registry = map<string, string>

  datatype Channels = Channels(sandbox: int, live: int, logging: int) {
    predicate AllDifferent() {
      sandbox != live && sandbox != logging && live != logging
    }
  }

  /** `strategyId` is some class name, a hyphen, and `key`. */
  predicate Matches(strategyId: string, key: string) {
    EndsWith(strategyId, "-" + key)
  }

  /** The tail after the first hyphen, from `i` on, whose tail is a registry key. */
  function FirstTail(strategyId: string, i: nat, registry: Registry): (r: Option<string>)
    requires i <= |strategyId|
    ensures r.Some? ==> r.value in registry && Matches(strategyId, r.value)
    decreases |strategyId| - i
  {
    if i == |strategyId| then None
    else if strategyId[i] == '-' && strategyId[i + 1..] in registry then Some(strategyId[i + 1..])
    else FirstTail(strategyId, i + 1, registry)
  }

  lemma MatchesMeans(strategyId: string, key: string)
    ensures Matches(strategyId, key)
       <==> |key| < |strategyId| && strategyId[|strategyId| - |key| - 1] == '-'
            && strategyId[|strategyId| - |key|..] == key
  {
    if |key| < |strategyId| {
      var tail := strategyId[|strategyId| - |key| - 1..];
      assert tail == [tail[0]] + strategyId[|strategyId| - |key|..];
      assert ("-" + key)[1..] == key && tail[1..] == strategyId[|strategyId| - |key|..];
    }
  }

  lemma {:induction false} FirstTailIsLongest(strategyId: string, i: nat, registry: Registry, key: string)
    requires i <= |strategyId| && key in registry && Matches(strategyId, key) && |key| < |strategyId| - i
    ensures FirstTail(strategyId, i, registry).Some?
    ensures |key| <= |FirstTail(strategyId, i, registry).value|
    decreases |strategyId| - i
  {
    MatchesMeans(strategyId, key);
    if |key| < |strategyId| - i - 1 && !(strategyId[i] == '-' && strategyId[i + 1..] in registry) {
      FirstTailIsLongest(strategyId, i + 1, registry, key);
    }
  }

  /** The registry handle meant by an event's strategy id. */
  function Resolve(strategyId: string, registry: Registry): string {
    if strategyId in registry then strategyId
    else FirstTail(strategyId, 0, registry).GetOr(strategyId)
  }

  lemma SameLengthSameKey(strategyId: string, j: string, k: string)
    requires Matches(strategyId, j) && Matches(strategyId, k) && |j| == |k|
    ensures j == k
  {
    assert j == ("-" + j)[1..] && k == ("-" + k)[1..];
  }

  /** `_resolve_handle`: any iteration order of the dictionary gives the same handle. */
  method ResolveHandle(strategyId: string, registry: Registry, order: seq<string>) returns (handle: string)
    requires forall k :: k in order <==> k in registry
    ensures handle == Resolve(strategyId, registry)
  {
    if strategyId in registry {
      return strategyId;
    }
    var best: Option<string> := None;
    for i := 0 to |order|
      invariant best.Some? ==> best.value in registry && Matches(strategyId, best.value)
      invariant forall j :: 0 <= j < i && Matches(strategyId, order[j]) ==> best.Some? && |order[j]| <= |best.value|
    {
      if Matches(strategyId, order[i]) && (best.None? || |order[i]| > |best.value|) {
        best := Some(order[i]);
      }
    }
    var first := FirstTail(strategyId, 0, registry);
    if best.Some? {
      FirstTailIsLongest(strategyId, 0, registry, best.value);
    }
    if first.Some? {
      assert first.value in order;
      SameLengthSameKey(strategyId, first.value, best.value);
    }
    handle := best.GetOr(strategyId);
  }

  /** The result is the unique longest matching key, or the id itself when none matches. */
  lemma ResolvesToLongest(strategyId: string, registry: Registry)
    requires strategyId !in registry
    ensures (forall k :: k in registry ==> !Matches(strategyId, k)) ==> Resolve(strategyId, registry) == strategyId
    ensures forall k :: k in registry && Matches(strategyId, k) ==>
              var r := Resolve(strategyId, registry);
              r in registry && Matches(strategyId, r) && (k == r || |k| < |r|)
  {
    var r := Resolve(strategyId, registry);
    forall k | k in registry && Matches(strategyId, k)
      ensures r in registry && Matches(strategyId, r) && (k == r || |k| < |r|)
    {
      FirstTailIsLongest(strategyId, 0, registry, k);
      if |k| == |r| {
        SameLengthSameKey(strategyId, k, r);
      }
    }
  }

  lemma ResolveIsIdempotent(strategyId: string, registry: Registry)
    ensures Resolve(Resolve(strategyId, registry), registry) == Resolve(strategyId, registry)
  { }

  /** Resolution undoes the `Class-handle` construction, for any hyphen-free class name and
      any registered handle (hyphens allowed), exactly unless the built id is itself a key. */
  lemma ResolveUndoesConstruction(className: string, handle: string, registry: Registry)
    requires '-' !in className && handle in registry
    ensures Resolve(className + "-" + handle, registry) == handle
       <==> className + "-" + handle !in registry
  {
    var id := className + "-" + handle;
    if id !in registry {
      assert id[|id| - |"-" + handle|..] == "-" + handle;
      FirstTailIsLongest(id, 0, registry, handle);
      var r := FirstTail(id, 0, registry).value;
      MatchesMeans(id, r);
      assert forall j :: 0 <= j < |className| ==> id[j] == className[j] && className[j] in className;
      SameLengthSameKey(id, r, handle);
    }
  }

  /** `route_channel` */
  function RouteChannel(strategyId: string, registry: Registry, channels: Channels): int {
    if strategyId == "" then channels.logging
    else
      var handle := Resolve(strategyId, registry);
      if handle in registry && registry[handle] == "live" then channels.live else channels.sandbox
  }

  /** `extract_strategy_id_from_body`, with the caller's `or ""`. */
  function StrategyScope(b: Body): string {
    if b.Dict? then b.strategyId.GetOr("") else ""
  }

  /** `route_event`'s channel: operational topics are never trade flow. */
  function RouteBody(topic: string, b: Body, registry: Registry, channels: Channels): int {
    RouteChannel(if "tinohelm." <= topic then "" else StrategyScope(b), registry, channels)
  }

  // ─── commands ────────────────────────────────────────────────────────────

  datatype Verdict = Accepted | ReadOnlyChannel | WrongChannel(effective: string)

  function ModeOf(strategyId: string, registry: Registry): string {
    if strategyId in registry then registry[strategyId] else "sandbox"
  }

  /** `validate_command_channel` */
  function ValidateCommandChannel(strategyId: string, channelMode: string, registry: Registry): Verdict {
    if channelMode == "logging" then ReadOnlyChannel
    else
      var effective := if ModeOf(strategyId, registry) == "live" then "live" else "sandbox";
      if effective != channelMode then WrongChannel(effective) else Accepted
  }

  /** A command is accepted from live exactly for ids registered as live, and from sandbox exactly
      for all others; the logging channel is read-only whatever the id; any other refusal names the
      channel to use. */
  lemma VerdictOf(strategyId: string, channelMode: string, registry: Registry)
    ensures var live := strategyId in registry && registry[strategyId] == "live";
            ValidateCommandChannel(strategyId, channelMode, registry)
            == if channelMode == "logging" then ReadOnlyChannel
               else if channelMode == (if live then "live" else "sandbox") then Accepted
               else WrongChannel(if live then "live" else "sandbox")
  { }

  function Select(order: seq<string>, registry: Registry, mode: string): seq<string>
    requires forall k :: k in order ==> k in registry
  {
    if order == [] then []
    else (if registry[order[0]] == mode then [order[0]] else []) + Select(order[1..], registry, mode)
  }

  /** `strategies_for_channel`, over the dictionary's iteration order. */
  function StrategiesForChannel(channelMode: Option<string>, registry: Registry, order: seq<string>): seq<string>
    requires forall k :: k in order <==> k in registry
  {
    if channelMode == Some("live") then Select(order, registry, "live")
    else if channelMode == Some("sandbox") then Select(order, registry, "sandbox")
    else order
  }

  lemma {:induction false} SelectMembers(order: seq<string>, registry: Registry, mode: string, s: string)
    requires forall k :: k in order ==> k in registry
    ensures multiset(Select(order, registry, mode))[s] == if s in order && registry[s] == mode then multiset(order)[s] else 0
    ensures s in Select(order, registry, mode) <==> s in order && registry[s] == mode
  {
    if order != [] {
      SelectMembers(order[1..], registry, mode, s);
      assert order == [order[0]] + order[1..];
    }
  }

  /** A fan-out lists each registered strategy of the channel's mode once; from logging, or from an
      unknown channel, each registered strategy once. */
  lemma FanOutIsComplete(channelMode: Option<string>, registry: Registry, order: seq<string>, s: string)
    requires forall k :: k in order <==> k in registry
    requires multiset(order)[s] <= 1
    ensures var targeted := s in registry && (channelMode in {Some("live"), Some("sandbox")} ==> Some(registry[s]) == channelMode);
            multiset(StrategiesForChannel(channelMode, registry, order))[s] == if targeted then 1 else 0
  {
    if channelMode in {Some("live"), Some("sandbox")} {
      SelectMembers(order, registry, channelMode.value, s);
    }
  }

  /** The live fan-out is exactly the set of ids whose commands are accepted from live. */
  lemma LiveFanOutIsAccepted(registry: Registry, order: seq<string>, s: string)
    requires forall k :: k in order <==> k in registry
    ensures s in StrategiesForChannel(Some("live"), registry, order)
       <==> ValidateCommandChannel(s, "live", registry) == Accepted
  {
    SelectMembers(order, registry, "live", s);
  }

  /** From sandbox every fanned-out id is accepted; what is accepted beyond the fan-out is
      exactly the unknown ids and those with an unrecognised mode. */
  lemma SandboxFanOutWithinAccepted(registry: Registry, order: seq<string>, s: string)
    requires forall k :: k in order <==> k in registry
    ensures s in StrategiesForChannel(Some("sandbox"), registry, order) ==>
              ValidateCommandChannel(s, "sandbox", registry) == Accepted
    ensures ValidateCommandChannel(s, "sandbox", registry) == Accepted
            && s !in StrategiesForChannel(Some("sandbox"), registry, order)
       <==> s !in registry || registry[s] !in {"live", "sandbox"}
  {
    SelectMembers(order, registry, "sandbox", s);
  }

  /** Scoped events go where commands for the resolved handle are accepted. */
  lemma EventsFollowCommands(strategyId: string, registry: Registry, channels: Channels)
    requires strategyId != "" && channels.AllDifferent()
    ensures RouteChannel(strategyId, registry, channels) == channels.live
       <==> ValidateCommandChannel(Resolve(strategyId, registry), "live", registry) == Accepted
    ensures RouteChannel(strategyId, registry, channels) == channels.sandbox
       <==> ValidateCommandChannel(Resolve(strategyId, registry), "sandbox", registry) == Accepted
  { }

  predicate ShadowedWithOtherMode(builtId: string, handle: string, registry: Registry) {
    builtId in registry && (ModeOf(builtId, registry) == "live") != (ModeOf(handle, registry) == "live")
  }

  /** Native events of a handle and commands for it agree on live exactly when the built id is
      not a key of its own with the other side's mode. */
  lemma NativeEventsFollowCommands(className: string, handle: string, registry: Registry, channels: Channels)
    requires '-' !in className && handle in registry && channels.AllDifferent()
    ensures (RouteChannel(className + "-" + handle, registry, channels) == channels.live
             <==> ValidateCommandChannel(handle, "live", registry) == Accepted)
       <==> !ShadowedWithOtherMode(className + "-" + handle, handle, registry)
  {
    ResolveUndoesConstruction(className, handle, registry);
    EventsFollowCommands(className + "-" + handle, registry, channels);
  }
}
