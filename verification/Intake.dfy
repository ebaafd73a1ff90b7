/** The two intake paths: the in-process subscription handler and the stream entry forwarder. */
module Intake {
  import opened Wrappers
  import opened Text
  import opened Events
  import opened OrderProgress
  import opened FillGate
  import opened OrderFold
  import opened TrackerRuns
  import opened Routing

  const ORDER_TOPICS := "events.order."
  const POSITION_TOPICS := "events.position."
  const ACCOUNT_TOPICS := "events.account."
  const SIGNAL_TOPICS := "data.Signal"
  const SYSTEM_TOPICS := "events.system."
  const OPERATIONAL_TOPICS := "tinohelm."

  /** The topic families the notifier renders. */
  const FORWARDED_TOPIC_PREFIXES := {
    ORDER_TOPICS, POSITION_TOPICS, ACCOUNT_TOPICS, SYSTEM_TOPICS, SIGNAL_TOPICS, OPERATIONAL_TOPICS
  }

  /** The in-process subscriptions: each family, as a wildcard pattern. */
  const SUBSCRIBE_PATTERNS := {
    ORDER_TOPICS + "*", POSITION_TOPICS + "*", ACCOUNT_TOPICS + "*", SIGNAL_TOPICS + "*",
    SYSTEM_TOPICS + "*", OPERATIONAL_TOPICS + "*"
  }

  predicate ShouldForwardTopic(topic: string) {
    exists p :: p in FORWARDED_TOPIC_PREFIXES && p <= topic
  }

  predicate Subscribed(pattern: string, topic: string) {
    pattern in SUBSCRIBE_PATTERNS && Glob(pattern, topic)
  }

  lemma PrefixPattern(prefix: string, topic: string)
    requires '*' !in prefix
    ensures Glob(prefix + "*", topic) <==> prefix <= topic
  {
    GlobOneStar(prefix, "", topic);
    assert prefix + "*" + "" == prefix + "*";
    assert topic[|topic|..] == "";
  }

  lemma NoStars()
    ensures forall p :: p in FORWARDED_TOPIC_PREFIXES ==> '*' !in p
  { }

  lemma PrefixSubscribed(prefix: string, topic: string)
    requires prefix in FORWARDED_TOPIC_PREFIXES
    ensures Subscribed(prefix + "*", topic) <==> prefix <= topic
  {
    NoStars();
    PrefixPattern(prefix, topic);
  }

  lemma FamilyOf(pattern: string) returns (prefix: string)
    requires pattern in SUBSCRIBE_PATTERNS
    ensures prefix in FORWARDED_TOPIC_PREFIXES && pattern == prefix + "*"
  {
    prefix := if pattern == ORDER_TOPICS + "*" then ORDER_TOPICS
    else if pattern == POSITION_TOPICS + "*" then POSITION_TOPICS
    else if pattern == ACCOUNT_TOPICS + "*" then ACCOUNT_TOPICS
    else if pattern == SIGNAL_TOPICS + "*" then SIGNAL_TOPICS
    else if pattern == SYSTEM_TOPICS + "*" then SYSTEM_TOPICS
    else OPERATIONAL_TOPICS;
  }

  /** The stream path's plain-text gate admits exactly the topics that some in-process
      subscription would have delivered. */
  lemma TopicGateMirrorsSubscriptions(topic: string)
    ensures ShouldForwardTopic(topic) <==> exists p :: Subscribed(p, topic)
  {
    if ShouldForwardTopic(topic) {
      var p :| p in FORWARDED_TOPIC_PREFIXES && p <= topic;
      PrefixSubscribed(p, topic);
    }
    if p :| Subscribed(p, topic) {
      var prefix := FamilyOf(p);
      PrefixSubscribed(prefix, topic);
    }
  }

  predicate Operational(topic: string) {
    OPERATIONAL_TOPICS <= topic
  }

  lemma FamiliesDiffer(prefix: string)
    requires prefix in FORWARDED_TOPIC_PREFIXES
    ensures prefix != "" && (prefix[0] == OPERATIONAL_TOPICS[0] <==> prefix == OPERATIONAL_TOPICS)
  { }

  /** Pattern and topic agree on being operational, so both paths make the same channel choice. */
  lemma SameScope(pattern: string, topic: string)
    requires Subscribed(pattern, topic)
    ensures Operational(pattern) <==> Operational(topic)
    ensures ShouldForwardTopic(topic)
  {
    TopicGateMirrorsSubscriptions(topic);
    var prefix := FamilyOf(pattern);
    PrefixSubscribed(prefix, topic);
    FamiliesDiffer(prefix);
    assert topic[0] == prefix[0] && pattern[0] == prefix[0];
    assert prefix == OPERATIONAL_TOPICS ==> prefix <= pattern;
  }

  // ─── one event through either path ───────────────────────────────────────

  datatype Delivery = Delivery(topic: string, body: Body, channel: int)

  datatype State = State(tracker: Cache, registry: Registry, sent: seq<Delivery>)

  /** Observe, gate, route and enqueue under `topic`. */
  function Deliver(s: State, topic: string, b: Body, channels: Channels, cap: nat): State {
    var t := Observed(s.tracker, b, cap);
    State(t, s.registry,
          if Passes(b, t) then s.sent + [Delivery(topic, b, RouteBody(topic, b, s.registry, channels))] else s.sent)
  }

  function StreamEntry(s: State, topic: Option<string>, b: Body, channels: Channels, cap: nat): State {
    if topic.Some? && ShouldForwardTopic(topic.value) then Deliver(s, topic.value, b, channels, cap) else s
  }

  class Notifier {
    const tracker: OrderProgressTracker
    const channels: Channels
    var registry: Registry
    var sent: seq<Delivery>

    ghost predicate Valid()
      reads this, tracker
    {
      tracker.Valid()
    }

    ghost function View(): State
      requires Valid()
      reads this, tracker, tracker.Repr
    {
      State(tracker.Contents(), registry, sent)
    }

    constructor (channels: Channels, registry: Registry)
      ensures Valid() && View() == State(NO_ORDERS, registry, []) && this.channels == channels
      ensures fresh(tracker) && tracker.Repr == {}
    {
      this.channels, this.registry, sent := channels, registry, [];
      tracker := new OrderProgressTracker();
    }

    method FillPasses(b: Body) returns (ok: bool)
      requires Valid()
      ensures ok == ShouldForwardFill(b, tracker.Contents())
    {
      if !b.HasType(ORDER_FILLED) || b.OrderId().None? {
        return true;
      }
      var p := tracker.Snapshot(b.OrderId().value);
      if p == null {
        return true;
      }
      return p.total.None? || p.filled >= p.total.value - SLACK;
    }

    /** The gates, in turn. */
    method GatesPass(b: Body) returns (ok: bool)
      requires Valid()
      ensures ok == Passes(b, tracker.Contents())
    {
      if !ComponentStatePasses(b) {
        return false;
      }
      if !ShouldForwardOrderEvent(b) {
        return false;
      }
      if !ShouldForwardEventType(b) {
        return false;
      }
      ok := FillPasses(b);
    }

    /** The part both paths share: feed the tracker, then ask the gates. */
    method Admit(b: Body) returns (ok: bool)
      requires Valid()
      modifies tracker, tracker.Repr
      ensures Valid() && fresh(tracker.Repr - old(tracker.Repr))
      ensures tracker.Contents() == Observed(old(tracker.Contents()), b, tracker.maxOrders)
      ensures ok == Passes(b, tracker.Contents())
    {
      tracker.Observe(b);
      ok := GatesPass(b);
    }

    /** The in-process handler of one subscription pattern. */
    method Handle(pattern: string, b: Body)
      requires Valid()
      modifies this, tracker, tracker.Repr
      ensures Valid() && fresh(tracker.Repr - old(tracker.Repr))
      ensures View() == Deliver(old(View()), pattern, b, channels, tracker.maxOrders)
    {
      var admitted := Admit(b);
      if admitted {
        var strategyId := if "tinohelm." <= pattern then "" else StrategyScope(b);
        sent := sent + [Delivery(pattern, b, RouteChannel(strategyId, registry, channels))];
      }
    }

    /** `_forward_stream_entry`: the same pipeline behind a plain-text topic gate, with the
        channel chosen before the tracker and the gates. */
    method ForwardStreamEntry(topic: Option<string>, b: Body) returns (forwarded: bool)
      requires Valid()
      modifies this, tracker, tracker.Repr
      ensures Valid() && fresh(tracker.Repr - old(tracker.Repr))
      ensures View() == StreamEntry(old(View()), topic, b, channels, tracker.maxOrders)
      ensures forwarded <==> |sent| == old(|sent|) + 1
    {
      if topic.None? || !ShouldForwardTopic(topic.value) {
        return false;
      }
      var channel := RouteBody(topic.value, b, registry, channels);
      forwarded := Admit(b);
      if forwarded {
        sent := sent + [Delivery(topic.value, b, channel)];
      }
    }
  }

  // ─── whole runs ──────────────────────────────────────────────────────────

  datatype Path = InProcess | Stream

  /** What can happen to a notifier: an event arrives on either path, handling one raises after
      the tracker has observed it, a rendered event is released from the tracker, the registry
      changes.  (An event whose handling raises before that leaves no trace.) */
  datatype Happening =
    | Arrive(path: Path, pattern: string, topic: string, body: Body)
    | Failed(body: Body)
    | Rendered(body: Body)
    | Announced(registry: Registry)

  function Happen(s: State, h: Happening, channels: Channels, cap: nat): State {
    match h
    case Arrive(InProcess, pattern, _, b) => Deliver(s, pattern, b, channels, cap)
    case Arrive(Stream, _, topic, b) => StreamEntry(s, Some(topic), b, channels, cap)
    case Failed(b) => s.(tracker := Observed(s.tracker, b, cap))
    case Rendered(b) => s.(tracker := Released(s.tracker, b))
    case Announced(registry) => s.(registry := registry)
  }

  function Play(s: State, hs: seq<Happening>, channels: Channels, cap: nat): State
    decreases |hs|
  {
    if hs == [] then s
    else Happen(Play(s, hs[..|hs| - 1], channels, cap), hs[|hs| - 1], channels, cap)
  }

  /** Same tracker, same registry, and the same bodies sent to the same channels in the same
      order; only the topic label may differ. */
  ghost predicate SameOutcome(p: State, q: State) {
    && p.tracker == q.tracker && p.registry == q.registry && |p.sent| == |q.sent|
    && forall i :: 0 <= i < |p.sent| ==> p.sent[i].body == q.sent[i].body && p.sent[i].channel == q.sent[i].channel
  }

  /** The same happening, but for the path on which an event arrives. */
  predicate SameEvent(h: Happening, g: Happening) {
    if h.Arrive? then g.Arrive? && g == h.(path := g.path) && Subscribed(h.pattern, h.topic) else g == h
  }

  lemma SameStep(p: State, q: State, h: Happening, g: Happening, channels: Channels, cap: nat)
    requires SameOutcome(p, q) && SameEvent(h, g)
    ensures SameOutcome(Happen(p, h, channels, cap), Happen(q, g, channels, cap))
  {
    if h.Arrive? {
      SameScope(h.pattern, h.topic);
    }
  }

  /** Fed the same events, in any mixture of the two paths, two notifiers cannot be told apart
      from what they send. */
  lemma {:induction false} PathsAgree(p: State, q: State, hs: seq<Happening>, gs: seq<Happening>, channels: Channels, cap: nat)
    requires SameOutcome(p, q) && |hs| == |gs|
    requires forall i :: 0 <= i < |hs| ==> SameEvent(hs[i], gs[i])
    ensures SameOutcome(Play(p, hs, channels, cap), Play(q, gs, channels, cap))
    decreases |hs|
  {
    if hs != [] {
      PathsAgree(p, q, hs[..|hs| - 1], gs[..|gs| - 1], channels, cap);
      SameStep(Play(p, hs[..|hs| - 1], channels, cap), Play(q, gs[..|gs| - 1], channels, cap),
               hs[|hs| - 1], gs[|gs| - 1], channels, cap);
    }
  }

  // ─── from the gates to the messages ──────────────────────────────────────

  /** The tracker call made by one happening: a stream entry outside the topic gate makes none. */
  function OpOf(h: Happening): seq<Op> {
    match h
    case Arrive(path, _, topic, b) => if path.InProcess? || ShouldForwardTopic(topic) then [Observe(b)] else []
    case Failed(b) => [Observe(b)]
    case Rendered(b) => [Release(b)]
    case Announced(_) => []
  }

  /** The tracker calls of a run. */
  function OpsOf(hs: seq<Happening>): seq<Op> {
    if hs == [] then [] else OpsOf(hs[..|hs| - 1]) + OpOf(hs[|hs| - 1])
  }

  /** For each tracker call of a run, whether the happening behind it got as far as sending. */
  function Told(hs: seq<Happening>): (r: seq<bool>)
    ensures |r| == |OpsOf(hs)|
  {
    if hs == [] then []
    else Told(hs[..|hs| - 1]) + (if OpOf(hs[|hs| - 1]) == [] then [] else [!hs[|hs| - 1].Failed?])
  }

  predicate FillBodyOf(b: Body, k: string) {
    b.HasType(ORDER_FILLED) && b.OrderId() == Some(k)
  }

  /** The `OrderFilled` messages of one order among those sent. */
  function FillsSent(sent: seq<Delivery>, k: string): seq<Body> {
    if sent == [] then []
    else
      var d := sent[|sent| - 1];
      FillsSent(sent[..|sent| - 1], k) + (if FillBodyOf(d.body, k) then [d.body] else [])
  }

  /** The fills of one order that pass the gates and whose handling gets as far as sending. */
  function ForwardedBodies(ops: seq<Op>, told: seq<bool>, cap: nat, k: string): seq<Body>
    requires |told| == |ops|
  {
    if ops == [] then []
    else
      var n := |ops| - 1;
      ForwardedBodies(ops[..n], told[..n], cap, k)
      + (if told[n] && FillOp(ops[n], k) && Passes(ops[n].body, Run(ops, cap)) then [ops[n].body] else [])
  }

  lemma FillsSentAppend(sent: seq<Delivery>, d: Delivery, k: string)
    ensures FillsSent(sent + [d], k) == FillsSent(sent, k) + (if FillBodyOf(d.body, k) then [d.body] else [])
  {
    assert (sent + [d])[..|sent|] == sent;
  }

  lemma ForwardedAppend(ops: seq<Op>, told: seq<bool>, op: Op, tells: bool, cap: nat, k: string)
    requires |told| == |ops|
    ensures Run(ops + [op], cap) == Step(Run(ops, cap), op, cap)
    ensures ForwardedBodies(ops + [op], told + [tells], cap, k)
         == ForwardedBodies(ops, told, cap, k)
            + (if tells && FillOp(op, k) && Passes(op.body, Run(ops + [op], cap)) then [op.body] else [])
  {
    assert (ops + [op])[..|ops|] == ops && (told + [tells])[..|told|] == told;
  }

  /** Tracker and fills sent, as functions of the tracker calls made so far. */
  ghost predicate Follows(s: State, ops: seq<Op>, told: seq<bool>, cap: nat, k: string) {
    |told| == |ops| && s.tracker == Run(ops, cap) && FillsSent(s.sent, k) == ForwardedBodies(ops, told, cap, k)
  }

  lemma DeliverFollows(s: State, ops: seq<Op>, told: seq<bool>, topic: string, b: Body, channels: Channels, cap: nat, k: string)
    requires Follows(s, ops, told, cap, k)
    ensures Follows(Deliver(s, topic, b, channels, cap), ops + [Observe(b)], told + [true], cap, k)
  {
    ForwardedAppend(ops, told, Observe(b), true, cap, k);
    FillsSentAppend(s.sent, Delivery(topic, b, RouteBody(topic, b, s.registry, channels)), k);
  }

  lemma HappenFollows(s: State, ops: seq<Op>, told: seq<bool>, h: Happening, channels: Channels, cap: nat, k: string)
    requires Follows(s, ops, told, cap, k)
    ensures Follows(Happen(s, h, channels, cap), ops + OpOf(h),
                    told + (if OpOf(h) == [] then [] else [!h.Failed?]), cap, k)
  {
    if OpOf(h) == [] {
      assert ops + [] == ops && told + [] == told;
    } else if h.Arrive? {
      DeliverFollows(s, ops, told, if h.path.InProcess? then h.pattern else h.topic, h.body, channels, cap, k);
    } else {
      ForwardedAppend(ops, told, OpOf(h)[0], !h.Failed?, cap, k);
    }
  }

  lemma {:induction false} SentFollowsOps(registry: Registry, hs: seq<Happening>, channels: Channels, cap: nat, k: string)
    ensures Follows(Play(State(NO_ORDERS, registry, []), hs, channels, cap), OpsOf(hs), Told(hs), cap, k)
  {
    if hs != [] {
      var pre := hs[..|hs| - 1];
      SentFollowsOps(registry, pre, channels, cap, k);
      HappenFollows(Play(State(NO_ORDERS, registry, []), pre, channels, cap), OpsOf(pre), Told(pre), hs[|hs| - 1], channels, cap, k);
    }
  }

  lemma ForwardedEarlier(ops: seq<Op>, cap: nat, k: string, n: nat, i: nat)
    requires i < n <= |ops|
    ensures ForwardedAt(ops[..n], cap, k, i) == ForwardedAt(ops, cap, k, i)
  {
    assert ops[..n][..i + 1] == ops[..i + 1];
  }

  lemma ForwardedLast(ops: seq<Op>, cap: nat, k: string)
    requires ops != []
    ensures ForwardedAt(ops, cap, k, |ops| - 1)
       <==> FillOp(ops[|ops| - 1], k) && Passes(ops[|ops| - 1].body, Run(ops, cap))
  {
    assert ops[..|ops|] == ops;
  }

  /** The only call that forwards a fill of `k` is `i`, or none is if `i` is negative. */
  ghost predicate OnlyForwards(ops: seq<Op>, cap: nat, k: string, i: int) {
    i < |ops| && forall j :: 0 <= j < |ops| ==> (ForwardedAt(ops, cap, k, j) <==> j == i)
  }

  lemma OnlyForwardsBefore(ops: seq<Op>, cap: nat, k: string, i: int)
    requires ops != [] && OnlyForwards(ops, cap, k, i)
    ensures OnlyForwards(ops[..|ops| - 1], cap, k, if i == |ops| - 1 then -1 else i)
  {
    var n := |ops| - 1;
    forall j | 0 <= j < n ensures ForwardedAt(ops[..n], cap, k, j) <==> j == i {
      ForwardedEarlier(ops, cap, k, n, j);
    }
  }

  lemma {:induction false} ForwardedBodiesAre(ops: seq<Op>, told: seq<bool>, cap: nat, k: string, i: int)
    requires |told| == |ops| && OnlyForwards(ops, cap, k, i)
    ensures ForwardedBodies(ops, told, cap, k) == if i >= 0 && told[i] then [ops[i].body] else []
  {
    if ops != [] {
      var n := |ops| - 1;
      OnlyForwardsBefore(ops, cap, k, i);
      ForwardedBodiesAre(ops[..n], told[..n], cap, k, if i == n then -1 else i);
      ForwardedLast(ops, cap, k);
      assert ForwardedAt(ops, cap, k, n) <==> n == i;
    }
  }

  lemma ForwardedSetSays(ops: seq<Op>, cap: nat, k: string, i: int)
    requires i < |ops| && ForwardedFills(ops, cap, k) == if i >= 0 then {i} else {}
    ensures OnlyForwards(ops, cap, k, i)
  {
    forall j | 0 <= j < |ops| ensures ForwardedAt(ops, cap, k, j) <==> j == i {
      assert ForwardedAt(ops, cap, k, j) <==> j in ForwardedFills(ops, cap, k);
    }
  }

  /** End to end: over any run of arrivals on both paths, failures, releases and registry changes,
      an orderly order left alone until its last fill is announced by exactly one `OrderFilled`
      message, its last fill, if its fills add up to the total and handling that one did not
      raise, and by none otherwise. */
  lemma OneMessagePerFilledOrder(registry: Registry, hs: seq<Happening>, channels: Channels, cap: nat,
                                 k: string, total: real, lot: real)
    requires Orderly(BodiesOf(OpsOf(hs), k), total, lot) && Quiet(OpsOf(hs), cap, k)
    ensures SumQty(Fills(BodiesOf(OpsOf(hs), k))) == total ==> LastFill(OpsOf(hs), k) >= 0
    ensures FillsSent(Play(State(NO_ORDERS, registry, []), hs, channels, cap).sent, k)
         == if SumQty(Fills(BodiesOf(OpsOf(hs), k))) == total && Told(hs)[LastFill(OpsOf(hs), k)]
            then [OpsOf(hs)[LastFill(OpsOf(hs), k)].body] else []
  {
    ExactlyOneMessageWhenQuiet(OpsOf(hs), cap, k, total, lot);
    SentFollowsOps(registry, hs, channels, cap, k);
    var full := SumQty(Fills(BodiesOf(OpsOf(hs), k))) == total;
    if full {
      SomeFill(OpsOf(hs), k, total, lot);
    }
    var i := if full then LastFill(OpsOf(hs), k) else -1;
    ForwardedSetSays(OpsOf(hs), cap, k, i);
    ForwardedBodiesAre(OpsOf(hs), Told(hs), cap, k, i);
  }

  // ─── an order whose total nobody told ────────────────────────────────────

  /** The fills of an order among the calls that got as far as sending. */
  function ToldFills(ops: seq<Op>, told: seq<bool>, k: string): seq<Body>
    requires |told| == |ops|
  {
    if ops == [] then []
    else
      var n := |ops| - 1;
      ToldFills(ops[..n], told[..n], k) + (if told[n] && FillOp(ops[n], k) then [ops[n].body] else [])
  }

  lemma {:induction false} UntoldAreForwarded(ops: seq<Op>, told: seq<bool>, cap: nat, k: string)
    requires |told| == |ops| && NeverTold(ops, k)
    ensures ForwardedBodies(ops, told, cap, k) == ToldFills(ops, told, k)
  {
    if ops != [] {
      var n := |ops| - 1;
      UntoldAreForwarded(ops[..n], told[..n], cap, k);
      if FillOp(ops[n], k) {
        UntoldPasses(ops, cap, k);
      }
    }
  }

  /** After a restart in the middle of an order, say: every fill of an order whose total is never
      told is sent, over any run, but for those whose handling raised. */
  lemma EveryFillOfUnknownTotal(registry: Registry, hs: seq<Happening>, channels: Channels, cap: nat, k: string)
    requires NeverTold(OpsOf(hs), k)
    ensures FillsSent(Play(State(NO_ORDERS, registry, []), hs, channels, cap).sent, k) == ToldFills(OpsOf(hs), Told(hs), k)
  {
    SentFollowsOps(registry, hs, channels, cap, k);
    UntoldAreForwarded(OpsOf(hs), Told(hs), cap, k);
  }

  // ─── the effect of one happening, and where messages go ──────────────────

  /** The topic families that are rendered. */
  predicate RenderedTopic(topic: string) {
    "events.order." <= topic || "events.position." <= topic || "events.account." <= topic
    || "events.system." <= topic || "data.Signal" <= topic || "tinohelm." <= topic
  }

  lemma TopicFamilies(topic: string)
    ensures ShouldForwardTopic(topic) <==> RenderedTopic(topic)
  {
    assert ORDER_TOPICS in FORWARDED_TOPIC_PREFIXES && POSITION_TOPICS in FORWARDED_TOPIC_PREFIXES
           && ACCOUNT_TOPICS in FORWARDED_TOPIC_PREFIXES && SYSTEM_TOPICS in FORWARDED_TOPIC_PREFIXES
           && SIGNAL_TOPICS in FORWARDED_TOPIC_PREFIXES && OPERATIONAL_TOPICS in FORWARDED_TOPIC_PREFIXES;
  }

  /** Worth a message: no boot or shutdown walk of a component, no mid-flight order event, no
      position or account churn, and no fill of a tracked order that is short of its known total. */
  predicate Worth(b: Body, slots: map<string, Progress>) {
    b.Raw?
    || (&& !(b.eventType == Some("ComponentStateChanged") && b.state.Some?
             && b.state.value in {"PRE_INITIALIZED", "READY", "INITIALIZED", "STARTING", "STOPPING", "RESUMING",
                                  "RESETTING", "DISPOSING", "DISPOSED", "DEGRADING", "FAULTING"})
        && b.eventType !in {Some("OrderInitialized"), Some("OrderSubmitted"), Some("OrderAccepted"),
                            Some("OrderPendingUpdate"), Some("OrderPendingCancel"), Some("OrderReleased"),
                            Some("OrderEmulated"), Some("PositionChanged"), Some("AccountState")}
        && !(b.eventType == Some("OrderFilled") && b.clientOrderId.Some? && b.clientOrderId.value != ""
             && b.clientOrderId.value in slots && slots[b.clientOrderId.value].total.Some?
             && slots[b.clientOrderId.value].filled < slots[b.clientOrderId.value].total.value - 0.000000001))
  }

  lemma WorthIsPassing(b: Body, c: Cache)
    ensures Passes(b, c) <==> Worth(b, c.slots)
  {
    if b.Dict? {
      assert b.TypeIn(TRANSIENT_ORDER_EVENTS) || b.TypeIn(SILENCED_EVENT_TYPES)
        <==> b.eventType in {Some("OrderInitialized"), Some("OrderSubmitted"), Some("OrderAccepted"),
                             Some("OrderPendingUpdate"), Some("OrderPendingCancel"), Some("OrderReleased"),
                             Some("OrderEmulated"), Some("PositionChanged"), Some("AccountState")};
    }
  }

  predicate Scoped(b: Body) {
    b.Dict? && b.strategyId.Some? && b.strategyId.value != ""
  }

  /** The right channel: logging for what is operational or names no strategy; otherwise the one
      from which commands for the strategy are accepted. */
  predicate RightChannel(channel: int, topic: string, b: Body, registry: Registry, channels: Channels) {
    if "tinohelm." <= topic || !Scoped(b) then channel == channels.logging
    else
      var handle := Resolve(b.strategyId.value, registry);
      if ValidateCommandChannel(handle, "live", registry) == Accepted then channel == channels.live
      else channel == channels.sandbox && ValidateCommandChannel(handle, "sandbox", registry) == Accepted
  }

  lemma RoutedRight(topic: string, b: Body, registry: Registry, channels: Channels)
    ensures RightChannel(RouteBody(topic, b, registry, channels), topic, b, registry, channels)
  { }

  /** The name under which an arriving event is sent. */
  function Heading(h: Happening): string
    requires h.Arrive?
  {
    if h.path.InProcess? then h.pattern else h.topic
  }

  /** What one happening does: the tracker observes what arrives on a rendered topic, and such an
      event is sent, under its own name and to the right channel, exactly if it is worth it; a
      failing one is only observed; nothing else sends. */
  lemma EffectOf(s: State, h: Happening, channels: Channels, cap: nat)
    ensures var t := Happen(s, h, channels, cap);
            && t.registry == (if h.Announced? then h.registry else s.registry)
            && (h.Failed? ==> t.tracker == Observed(s.tracker, h.body, cap))
            && (h.Rendered? ==> t.tracker == Released(s.tracker, h.body))
            && (h.Announced? ==> t.tracker == s.tracker)
            && if h.Arrive? && (h.path.InProcess? || RenderedTopic(h.topic))
               then t.tracker == Observed(s.tracker, h.body, cap)
                    && if Worth(h.body, t.tracker.slots)
                       then |t.sent| == |s.sent| + 1 && t.sent[..|s.sent|] == s.sent
                            && t.sent[|s.sent|].topic == Heading(h) && t.sent[|s.sent|].body == h.body
                            && RightChannel(t.sent[|s.sent|].channel, Heading(h), h.body, s.registry, channels)
                       else t.sent == s.sent
               else t.sent == s.sent && (h.Arrive? ==> t.tracker == s.tracker)
  {
    if h.Arrive? {
      TopicFamilies(h.topic);
      WorthIsPassing(h.body, Observed(s.tracker, h.body, cap));
      RoutedRight(Heading(h), h.body, s.registry, channels);
    }
  }

  /** The registry in force after some happenings: the last one announced. */
  function LastAnnounced(registry: Registry, hs: seq<Happening>): Registry {
    if hs == [] then registry
    else if hs[|hs| - 1].Announced? then hs[|hs| - 1].registry
    else LastAnnounced(registry, hs[..|hs| - 1])
  }

  lemma {:induction false} RegistryInForce(s: State, hs: seq<Happening>, channels: Channels, cap: nat)
    ensures Play(s, hs, channels, cap).registry == LastAnnounced(s.registry, hs)
  {
    if hs != [] {
      RegistryInForce(s, hs[..|hs| - 1], channels, cap);
    }
  }

  /** Message `d` is that of the j-th happening, sent to the right channel of that moment. */
  ghost predicate MessageOf(d: Delivery, registry: Registry, hs: seq<Happening>, channels: Channels, j: nat) {
    && j < |hs| && hs[j].Arrive? && d.body == hs[j].body && d.topic == Heading(hs[j])
    && RightChannel(d.channel, d.topic, d.body, LastAnnounced(registry, hs[..j]), channels)
  }

  lemma MessageStays(d: Delivery, registry: Registry, hs: seq<Happening>, h: Happening, channels: Channels, j: nat)
    requires MessageOf(d, registry, hs, channels, j)
    ensures MessageOf(d, registry, hs + [h], channels, j)
  {
    assert (hs + [h])[..j] == hs[..j];
  }

  lemma MessageComes(s: State, registry: Registry, hs: seq<Happening>, h: Happening, channels: Channels, cap: nat)
    requires s.registry == LastAnnounced(registry, hs) && Happen(s, h, channels, cap).sent != s.sent
    ensures var sent := Happen(s, h, channels, cap).sent;
            |sent| == |s.sent| + 1 && MessageOf(sent[|s.sent|], registry, hs + [h], channels, |hs|)
  {
    EffectOf(s, h, channels, cap);
    assert (hs + [h])[..|hs|] == hs;
  }

  /** Over every run each message belongs to an arrival and went where commands for its strategy
      were accepted under the registry of that moment, or to logging. */
  lemma {:induction false} EveryMessageRouted(registry: Registry, hs: seq<Happening>, channels: Channels, cap: nat, i: nat)
    returns (j: nat)
    requires i < |Play(State(NO_ORDERS, registry, []), hs, channels, cap).sent|
    ensures MessageOf(Play(State(NO_ORDERS, registry, []), hs, channels, cap).sent[i], registry, hs, channels, j)
  {
    var pre, h := hs[..|hs| - 1], hs[|hs| - 1];
    assert hs == pre + [h];
    var s := Play(State(NO_ORDERS, registry, []), pre, channels, cap);
    EffectOf(s, h, channels, cap);
    if i < |s.sent| {
      j := EveryMessageRouted(registry, pre, channels, cap, i);
      MessageStays(s.sent[i], registry, pre, h, channels, j);
    } else {
      RegistryInForce(State(NO_ORDERS, registry, []), pre, channels, cap);
      MessageComes(s, registry, pre, h, channels, cap);
      j := |pre|;
    }
  }
}
