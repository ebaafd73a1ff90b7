/** The forwarder's report listeners: request/response over the broadcast report topics.

    Every operation is one atomic step on the event-loop thread.  `Enqueue` decides whether a
    report is on demand at once, but resolves the waiting futures only later, when the
    deferred dispatch it queued gets its turn. */
module Forwarder {
  import opened Wrappers
  import opened Events
  import opened Seqs
  import Intake

  const REPORT_TOPIC_POSITIONS := "tinohelm.report.positions"
  const REPORT_TOPIC_FILLS := "tinohelm.report.fills"
  const REPORT_TOPIC_ORDERS := "tinohelm.report.orders"

  const ON_DEMAND_REPORT_TOPICS := {REPORT_TOPIC_POSITIONS, REPORT_TOPIC_FILLS, REPORT_TOPIC_ORDERS}

  datatype Envelope = Envelope(topic: string, body: Body, receivedAt: nat)

  /** Report topic and strategy id. */
  type Key = (string, string)

  /** The listeners an envelope is for: it must name a topic and a strategy. */
  function KeyOf(env: Envelope): (r: Option<Key>)
    ensures r.Some? ==> env.topic == r.value.0 != "" && env.body.Dict? && env.body.strategyId == Some(r.value.1)
                        && r.value.1 != ""
    ensures r.None? ==> env.topic == "" || env.body.Raw? || env.body.strategyId in {None, Some("")}
  {
    if env.topic != "" && env.body.Dict? && Truthy(env.body.strategyId).Some?
    then Some((env.topic, env.body.strategyId.value)) else None
  }

  datatype Status = Pending | Resolved(env: Envelope) | Cancelled

  /** A future, and the key it was created for. */
  datatype Future = Future(key: Key, status: Status)

  /** Futures are named by their index.  `deferred` is the loop's queue of dispatches; `ran`
      (history) are those that had their turn, and `dropped` (history) the futures removed from
      their wait list by request. */
  datatype State = State(listeners: map<Key, seq<nat>>, futures: seq<Future>, deferred: seq<Envelope>,
                         sends: seq<(Envelope, int)>, closed: bool, ran: seq<Envelope>, dropped: set<nat>)
  {
    predicate Listed(f: nat) {
      f < |futures| && futures[f].key in listeners && f in listeners[futures[f].key]
    }

    predicate Done(f: nat) {
      f < |futures| && !futures[f].status.Pending?
    }
  }

  const IDLE := State(map[], [], [], [], false, [], {})

  function RemoveFirst(ls: seq<nat>, f: nat): (r: seq<nat>)
    ensures f in ls ==> |r| == |ls| - 1
    ensures forall g :: g in r ==> g in ls
    ensures forall g :: g in ls && g != f ==> g in r
  {
    if ls == [] then [] else if ls[0] == f then ls[1..] else [ls[0]] + RemoveFirst(ls[1..], f)
  }

  function ListenersOf(s: State, key: Key): seq<nat> {
    if key in s.listeners then s.listeners[key] else []
  }

  function Watch(s: State, key: Key): State {
    s.(listeners := s.listeners[key := ListenersOf(s, key) + [|s.futures|]],
       futures := s.futures + [Future(key, Pending)])
  }

  function Drop(s: State, key: Key, f: nat): State {
    if f !in ListenersOf(s, key) then s
    else
      var rest := RemoveFirst(s.listeners[key], f);
      s.(listeners := if rest == [] then s.listeners - {key} else s.listeners[key := rest],
         dropped := s.dropped + {f})
  }

  function SetStatus(futures: seq<Future>, f: nat, status: Status): seq<Future> {
    if f < |futures| && futures[f].status.Pending? then futures[f := futures[f].(status := status)] else futures
  }

  function Cancel(s: State, f: nat): State {
    s.(futures := SetStatus(s.futures, f, Cancelled))
  }

  function ResolveAll(futures: seq<Future>, ls: seq<nat>, env: Envelope): seq<Future> {
    if ls == [] then futures
    else SetStatus(ResolveAll(futures, ls[..|ls| - 1], env), ls[|ls| - 1], Resolved(env))
  }

  /** `_dispatch_report_listeners` for one envelope. */
  function DispatchOne(s: State, env: Envelope): State {
    match KeyOf(env)
    case None => s
    case Some(key) =>
      s.(listeners := s.listeners - {key}, futures := ResolveAll(s.futures, ListenersOf(s, key), env))
  }

  /** The next deferred dispatch gets its turn. */
  function RunDeferred(s: State): State {
    if s.closed || s.deferred == [] then s
    else DispatchOne(s.(deferred := s.deferred[1..], ran := s.ran + [s.deferred[0]]), s.deferred[0])
  }

  predicate IsReport(env: Envelope)
    ensures IsReport(env)
       <==> env.topic in {"tinohelm.report.positions", "tinohelm.report.fills", "tinohelm.report.orders"}
  {
    env.topic in ON_DEMAND_REPORT_TOPICS
  }

  /** A listener is waiting for exactly this report. */
  predicate OnDemand(s: State, env: Envelope) {
    IsReport(env) && KeyOf(env).Some? && ListenersOf(s, KeyOf(env).value) != []
  }

  function Enqueued(s: State, env: Envelope, channel: int): State {
    if s.closed then s
    else
      var q := if IsReport(env) then s.(deferred := s.deferred + [env]) else s;
      if OnDemand(s, env) then q else q.(sends := q.sends + [(env, channel)])
  }

  class DiscordForwarder {
    var listeners: map<Key, seq<nat>>
    /** The loop's futures, its queue of call-soon callbacks, and the sends it was given. */
    var futures: seq<Future>
    var deferred: seq<Envelope>
    var sends: seq<(Envelope, int)>
    var closed: bool
    ghost var ran: seq<Envelope>
    ghost var dropped: set<nat>

    ghost function View(): State
      reads this
    {
      State(listeners, futures, deferred, sends, closed, ran, dropped)
    }

    constructor ()
      ensures View() == IDLE && Inv(View())
    {
      listeners, futures, deferred, sends, closed, ran, dropped := map[], [], [], [], false, [], {};
    }

    method WatchReport(topic: string, strategyId: string) returns (future: nat)
      modifies this
      ensures future == old(|futures|) && View() == Watch(old(View()), (topic, strategyId))
    {
      var key := (topic, strategyId);
      future := |futures|;
      futures := futures + [Future(key, Pending)];
      if key !in listeners {
        listeners := listeners[key := []];
      }
      listeners := listeners[key := listeners[key] + [future]];
    }

    method DropReportListener(topic: string, strategyId: string, future: nat)
      modifies this
      ensures View() == Drop(old(View()), (topic, strategyId), future)
    {
      var key := (topic, strategyId);
      if key !in listeners || future !in listeners[key] {
        return;
      }
      var rest := RemoveFirst(listeners[key], future);
      listeners := listeners[key := rest];
      dropped := dropped + {future};
      if rest == [] {
        listeners := listeners - {key};
      }
    }

    method SettleFuture(f: nat, status: Status)
      modifies this`futures
      ensures futures == SetStatus(old(futures), f, status)
    {
      if f < |futures| && futures[f].status.Pending? {
        futures := futures[f := futures[f].(status := status)];
      }
    }

    method DispatchReportListeners(env: Envelope)
      modifies this`listeners, this`futures
      ensures View() == DispatchOne(old(View()), env)
    {
      if !env.body.Dict? {
        return;
      }
      var sid := Truthy(env.body.strategyId);
      if sid.None? || env.topic == "" {
        return;
      }
      var key := (env.topic, sid.value);
      var waiting := if key in listeners then listeners[key] else [];
      listeners := listeners - {key};
      for i := 0 to |waiting|
        invariant listeners == old(listeners) - {key}
        invariant futures == ResolveAll(old(futures), waiting[..i], env)
      {
        assert waiting[..i + 1][..i] == waiting[..i];
        SettleFuture(waiting[i], Resolved(env));
      }
      assert waiting[..|waiting|] == waiting;
    }

    method RunNextDeferred()
      modifies this
      ensures View() == RunDeferred(old(View()))
    {
      if !closed && deferred != [] {
        var env := deferred[0];
        deferred := deferred[1..];
        ran := ran + [env];
        DispatchReportListeners(env);
      }
    }

    method Enqueue(env: Envelope, channel: int)
      modifies this`deferred, this`sends
      ensures View() == Enqueued(old(View()), env, channel)
    {
      if closed {
        return;
      }
      if IsReport(env) {
        var sid := if env.body.Dict? then Truthy(env.body.strategyId) else None;
        var onDemand := sid.Some? && (env.topic, sid.value) in listeners && listeners[(env.topic, sid.value)] != [];
        deferred := deferred + [env];
        if onDemand {
          return;
        }
      }
      sends := sends + [(env, channel)];
    }
  }

  // ─── runs ────────────────────────────────────────────────────────────────

  datatype Step =
    | WatchStep(key: Key)
    | DropStep(key: Key, future: nat)
    | CancelStep(future: nat)
    | EnqueueStep(env: Envelope, channel: int)
    | DispatchStep
    | CloseStep

  function Apply(s: State, step: Step): State {
    match step
    case WatchStep(key) => Watch(s, key)
    case DropStep(key, f) => Drop(s, key, f)
    case CancelStep(f) => Cancel(s, f)
    case EnqueueStep(env, channel) => Enqueued(s, env, channel)
    case DispatchStep => RunDeferred(s)
    case CloseStep => s.(closed := true)
  }

  function Run(s: State, steps: seq<Step>): State {
    if steps == [] then s else Apply(Run(s, steps[..|steps| - 1]), steps[|steps| - 1])
  }

  // ─── protocol safety ─────────────────────────────────────────────────────

  ghost predicate ListOk(s: State, key: Key) {
    key in s.listeners ==>
      s.listeners[key] != [] && Distinct(s.listeners[key])
      && forall f :: f in s.listeners[key] ==>
           f < |s.futures| && s.futures[f].key == key && !s.futures[f].status.Resolved? && f !in s.dropped
  }

  ghost predicate FutureOk(s: State, f: nat)
    requires f < |s.futures|
  {
    && (s.futures[f].status.Resolved? ==>
          KeyOf(s.futures[f].status.env) == Some(s.futures[f].key) && f !in s.dropped)
    && (s.futures[f].status.Pending? && f !in s.dropped ==> s.Listed(f))
  }

  /** No empty list; a future is listed at most once, only under its own key and never once
      resolved or dropped; it is resolved only by a report of its own key, and never once
      dropped; and every pending future that was not dropped is still listed. */
  ghost predicate Inv(s: State) {
    && (forall key :: ListOk(s, key))
    && (forall f: nat :: f < |s.futures| ==> FutureOk(s, f))
    && (forall f :: f in s.dropped ==> f < |s.futures|)
  }

  lemma {:induction false} RemoveDistinct(ls: seq<nat>, f: nat)
    requires Distinct(ls)
    ensures Distinct(RemoveFirst(ls, f)) && f !in RemoveFirst(ls, f)
  {
    if ls != [] && ls[0] != f {
      RemoveDistinct(ls[1..], f);
      var r := RemoveFirst(ls[1..], f);
      assert ([ls[0]] + r)[1..] == r;
    }
  }

  lemma {:induction false} ResolveAllMeaning(futures: seq<Future>, ls: seq<nat>, env: Envelope)
    ensures var r := ResolveAll(futures, ls, env);
            |r| == |futures|
            && forall f :: 0 <= f < |futures| ==>
                 r[f] == if f in ls && futures[f].status.Pending? then futures[f].(status := Resolved(env)) else futures[f]
  {
    if ls != [] {
      ResolveAllMeaning(futures, ls[..|ls| - 1], env);
      assert forall f :: f in ls <==> f in ls[..|ls| - 1] || f == ls[|ls| - 1];
    }
  }

  lemma WatchKeeps(s: State, key: Key)
    requires Inv(s)
    ensures Inv(Watch(s, key))
  {
    var t := Watch(s, key);
    forall k ensures ListOk(t, k) {
      assert ListOk(s, k);
      if k == key {
        AppendDistinct<nat>(ListenersOf(s, key), |s.futures|);
      }
    }
    forall f: nat | f < |t.futures| ensures FutureOk(t, f) {
      if f < |s.futures| {
        assert FutureOk(s, f);
      }
    }
  }

  lemma DropKeeps(s: State, key: Key, f: nat)
    requires Inv(s)
    ensures Inv(Drop(s, key, f))
  {
    var t := Drop(s, key, f);
    if f in ListenersOf(s, key) {
      assert ListOk(s, key);
      RemoveDistinct(s.listeners[key], f);
      forall k ensures ListOk(t, k) {
        assert ListOk(s, k);
      }
      forall g: nat | g < |t.futures| ensures FutureOk(t, g) {
        assert FutureOk(s, g);
      }
    }
  }

  lemma CancelKeeps(s: State, f: nat)
    requires Inv(s)
    ensures Inv(Cancel(s, f))
  {
    var t := Cancel(s, f);
    forall k ensures ListOk(t, k) {
      assert ListOk(s, k);
    }
    forall g: nat | g < |t.futures| ensures FutureOk(t, g) {
      assert FutureOk(s, g);
    }
  }

  lemma DispatchKeeps(s: State, env: Envelope)
    requires Inv(s)
    ensures Inv(DispatchOne(s, env))
  {
    if KeyOf(env).Some? {
      var key := KeyOf(env).value;
      var t := DispatchOne(s, env);
      ResolveAllMeaning(s.futures, ListenersOf(s, key), env);
      assert ListOk(s, key);
      forall k ensures ListOk(t, k) {
        assert ListOk(s, k);
      }
      forall f: nat | f < |t.futures| ensures FutureOk(t, f) {
        assert FutureOk(s, f);
      }
    }
  }

  lemma SameTable(s: State, t: State)
    requires Inv(s) && t.listeners == s.listeners && t.futures == s.futures && t.dropped == s.dropped
    ensures Inv(t)
  {
    forall k ensures ListOk(t, k) {
      assert ListOk(s, k);
    }
    forall f: nat | f < |t.futures| ensures FutureOk(t, f) {
      assert FutureOk(s, f);
    }
  }

  lemma StepKeepsInv(s: State, step: Step)
    requires Inv(s)
    ensures Inv(Apply(s, step))
  {
    match step
    case WatchStep(key) => WatchKeeps(s, key);
    case DropStep(key, f) => DropKeeps(s, key, f);
    case CancelStep(f) => CancelKeeps(s, f);
    case DispatchStep =>
      if !s.closed && s.deferred != [] {
        var q := s.(deferred := s.deferred[1..], ran := s.ran + [s.deferred[0]]);
        SameTable(s, q);
        DispatchKeeps(q, s.deferred[0]);
      }
    case _ => SameTable(s, Apply(s, step));
  }

  /** Safety under every interleaving. */
  lemma {:induction false} ProtocolSafety(s: State, steps: seq<Step>)
    requires Inv(s)
    ensures Inv(Run(s, steps))
  {
    if steps != [] {
      ProtocolSafety(s, steps[..|steps| - 1]);
      StepKeepsInv(Run(s, steps[..|steps| - 1]), steps[|steps| - 1]);
    }
  }

  // ─── once done, done ─────────────────────────────────────────────────────

  /** Futures keep their key, and a resolved or cancelled future never changes again. */
  ghost predicate Later(s: State, t: State) {
    && |s.futures| <= |t.futures| && s.dropped <= t.dropped
    && (forall f :: 0 <= f < |s.futures| ==>
          t.futures[f].key == s.futures[f].key && (!s.futures[f].status.Pending? ==> t.futures[f] == s.futures[f]))
    && s.ran + s.deferred <= t.ran + t.deferred && |s.ran| <= |t.ran|
  }

  lemma LaterStill(s: State, t: State, u: State)
    requires Later(s, t) && Later(t, u)
    ensures Later(s, u)
  { }

  lemma StepIsLater(s: State, step: Step)
    ensures Later(s, Apply(s, step))
  {
    if step.DispatchStep? && !s.closed && s.deferred != [] {
      var env := s.deferred[0];
      assert s.ran + s.deferred == s.ran + [env] + s.deferred[1..];
      if KeyOf(env).Some? {
        ResolveAllMeaning(s.futures, ListenersOf(s, KeyOf(env).value), env);
      }
    }
  }

  /** Each future is resolved at most once: whatever it was resolved with, it keeps. */
  lemma {:induction false} SettledForGood(s: State, steps: seq<Step>)
    ensures Later(s, Run(s, steps))
  {
    if steps != [] {
      SettledForGood(s, steps[..|steps| - 1]);
      StepIsLater(Run(s, steps[..|steps| - 1]), steps[|steps| - 1]);
    }
  }

  /** The queue never stalls: on an open loop a dispatch step takes the oldest envelope off the
      queue, whether or not it names a strategy or finds a listener, and sends nothing. */
  lemma DispatchMovesHead(s: State)
    ensures var t := RunDeferred(s);
            t.sends == s.sends && t.closed == s.closed && t.dropped == s.dropped
            && if s.closed || s.deferred == [] then t == s
               else t.deferred == s.deferred[1..] && t.ran == s.ran + [s.deferred[0]]
                    && (KeyOf(s.deferred[0]).None? ==> t.listeners == s.listeners && t.futures == s.futures)
  { }

  /** On a closed loop an event is dropped: neither queued nor sent. */
  lemma ClosedDrops(s: State, env: Envelope, channel: int)
    requires s.closed
    ensures Enqueued(s, env, channel) == s
  { }

  // ─── swallow accountability ──────────────────────────────────────────────

  /** On an open loop an envelope skips the send exactly when it is a report with a listener
      of its key; otherwise it always reaches the send path. */
  lemma SwallowedIff(s: State, env: Envelope, channel: int)
    requires Inv(s) && !s.closed
    ensures Enqueued(s, env, channel).sends == s.sends
       <==> IsReport(env) && KeyOf(env).Some? && exists f: nat :: s.Listed(f) && s.futures[f].key == KeyOf(env).value
    ensures Enqueued(s, env, channel).sends != s.sends ==>
              Enqueued(s, env, channel).sends == s.sends + [(env, channel)]
    ensures Enqueued(s, env, channel).deferred == s.deferred + (if IsReport(env) then [env] else [])
  {
    if KeyOf(env).Some? {
      var key := KeyOf(env).value;
      assert ListOk(s, key);
      if OnDemand(s, env) {
        var f := s.listeners[key][0];
        assert f in s.listeners[key];
        assert s.Listed(f);
      }
    }
  }

  /** All futures of `key` among the first `n` are done or dropped. */
  ghost predicate AllAccounted(s: State, key: Key, n: nat) {
    n <= |s.futures| && forall f :: 0 <= f < n && s.futures[f].key == key ==> s.Done(f) || f in s.dropped
  }

  lemma DispatchAccounts(s: State, key: Key)
    requires Inv(s) && !s.closed && s.deferred != [] && KeyOf(s.deferred[0]) == Some(key)
    ensures AllAccounted(RunDeferred(s), key, |s.futures|)
  {
    var t := RunDeferred(s);
    StepKeepsInv(s, DispatchStep);
    StepIsLater(s, DispatchStep);
    assert t.listeners == s.listeners - {key};
    forall f | 0 <= f < |s.futures| && t.futures[f].key == key ensures t.Done(f) || f in t.dropped {
      assert FutureOk(t, f);
    }
  }

  lemma StaysAccounted(s: State, t: State, key: Key, n: nat)
    requires Later(s, t) && AllAccounted(s, key, n)
    ensures AllAccounted(t, key, n)
  {
    forall f | 0 <= f < n && t.futures[f].key == key ensures t.Done(f) || f in t.dropped {
      assert s.futures[f].key == key;
    }
  }

  /** The dispatch with this ticket is that of `env`, and once it has run the first `n` futures
      of the key are accounted for. */
  ghost predicate Served(t: State, ticket: nat, env: Envelope, key: Key, n: nat) {
    && n <= |t.futures| && ticket < |t.ran + t.deferred| && (t.ran + t.deferred)[ticket] == env
    && (|t.ran| > ticket ==> AllAccounted(t, key, n))
  }

  lemma ServedStep(m: State, step: Step, ticket: nat, env: Envelope, key: Key, n: nat)
    requires Inv(m) && KeyOf(env) == Some(key) && Served(m, ticket, env, key, n)
    ensures Served(Apply(m, step), ticket, env, key, n)
  {
    var t := Apply(m, step);
    StepIsLater(m, step);
    assert (t.ran + t.deferred)[ticket] == (m.ran + m.deferred)[ticket];
    if |m.ran| > ticket {
      StaysAccounted(m, t, key, n);
    } else if |t.ran| > ticket {
      assert (m.ran + m.deferred)[ticket] == m.deferred[0];
      DispatchAccounts(m, key);
      assert AllAccounted(t, key, |m.futures|);
    }
  }

  lemma {:induction false} StaysServed(e: State, steps: seq<Step>, ticket: nat, env: Envelope, key: Key, n: nat)
    requires Inv(e) && KeyOf(env) == Some(key) && Served(e, ticket, env, key, n)
    ensures Served(Run(e, steps), ticket, env, key, n)
  {
    if steps != [] {
      var pre := steps[..|steps| - 1];
      StaysServed(e, pre, ticket, env, key, n);
      ProtocolSafety(e, pre);
      ServedStep(Run(e, pre), steps[|pre|], ticket, env, key, n);
    }
  }

  lemma EnqueueTakesTicket(s: State, env: Envelope, channel: int)
    requires Inv(s) && !s.closed && IsReport(env) && KeyOf(env).Some?
    ensures Inv(Enqueued(s, env, channel)) && Later(s, Enqueued(s, env, channel))
    ensures Served(Enqueued(s, env, channel), |s.ran| + |s.deferred|, env, KeyOf(env).value, |s.futures|)
  {
    var e := Enqueued(s, env, channel);
    StepIsLater(s, EnqueueStep(env, channel));
    SameTable(s, e);
    assert e.ran + e.deferred == (s.ran + s.deferred) + [env];
  }

  /** Once a report's own deferred dispatch has run, every future of its key that existed when
      the report was enqueued is done or dropped, whatever happened in between.  The dispatch
      queued by `Enqueued(s, env, _)` is the one at position `|ran| + |deferred|`. */
  lemma SwallowAccountability(s: State, env: Envelope, channel: int, steps: seq<Step>)
    requires Inv(s) && !s.closed && IsReport(env) && KeyOf(env).Some?
    ensures Served(Run(Enqueued(s, env, channel), steps), |s.ran| + |s.deferred|, env, KeyOf(env).value, |s.futures|)
    ensures Later(s, Run(Enqueued(s, env, channel), steps))
  {
    var e := Enqueued(s, env, channel);
    EnqueueTakesTicket(s, env, channel);
    StaysServed(e, steps, |s.ran| + |s.deferred|, env, KeyOf(env).value, |s.futures|);
    SettledForGood(e, steps);
    LaterStill(s, e, Run(e, steps));
  }

  // ─── whom a dispatch reaches ─────────────────────────────────────────────

  predicate ResolvedWith(s: State, f: nat, env: Envelope) {
    f < |s.futures| && s.futures[f].status == Resolved(env)
  }

  predicate Waiting(s: State, f: nat, key: Key) {
    s.Listed(f) && s.futures[f].status.Pending? && s.futures[f].key == key
  }

  /** A dispatch resolves exactly the pending futures listed under its key at that time; it
      may well be none, even for a report whose send was skipped. */
  lemma DispatchReaches(s: State, env: Envelope, f: nat)
    requires Inv(s) && KeyOf(env).Some? && !ResolvedWith(s, f, env)
    ensures ResolvedWith(DispatchOne(s, env), f, env) <==> Waiting(s, f, KeyOf(env).value)
  {
    var key := KeyOf(env).value;
    ResolveAllMeaning(s.futures, ListenersOf(s, key), env);
    assert ListOk(s, key);
  }

  predicate WasCancelled(s: State, f: nat) {
    f < |s.futures| && s.futures[f].status.Cancelled?
  }

  /** Neither cancelled nor dropped so far. */
  predicate Kept(s: State, f: nat) {
    !WasCancelled(s, f) && f !in s.dropped
  }

  /** The position in a queue of the first envelope of a key, or the queue's length. */
  function FirstOf(q: seq<Envelope>, key: Key): (p: nat)
    ensures p <= |q|
    ensures p < |q| ==> KeyOf(q[p]) == Some(key)
    ensures forall i :: 0 <= i < p ==> KeyOf(q[i]) != Some(key)
  {
    if q == [] then 0 else if KeyOf(q[0]) == Some(key) then 0 else 1 + FirstOf(q[1..], key)
  }

  /** What a dispatch does to one waiting future. */
  lemma DispatchEffect(s: State, f: nat, key: Key)
    requires Inv(s) && Waiting(s, f, key) && !s.closed && s.deferred != []
    ensures var t := RunDeferred(s);
            if KeyOf(s.deferred[0]) == Some(key) then ResolvedWith(t, f, s.deferred[0]) else Waiting(t, f, key)
  {
    var env := s.deferred[0];
    if KeyOf(env).Some? {
      ResolveAllMeaning(s.futures, ListenersOf(s, KeyOf(env).value), env);
      assert ListOk(s, KeyOf(env).value);
    }
  }

  /** Any other step leaves a waiting future waiting, unless it cancels or drops it. */
  lemma StillWaiting(s: State, step: Step, f: nat, key: Key)
    requires Inv(s) && Waiting(s, f, key) && !step.DispatchStep?
    ensures Kept(Apply(s, step), f) ==> Waiting(Apply(s, step), f, key)
  {
    if step.DropStep? {
      assert ListOk(s, step.key);
    }
  }

  lemma KeptBefore(s: State, t: State, f: nat)
    requires Later(s, t) && f < |s.futures| && Kept(t, f)
    ensures Kept(s, f)
  { }

  /** Dispatches leave the queue in the order in which they entered it. */
  lemma NextInQueue(s: State, m: State)
    requires Later(s, m) && m.deferred != [] && |m.ran| < |s.ran| + |s.deferred|
    ensures |m.ran| >= |s.ran| && m.deferred[0] == s.deferred[|m.ran| - |s.ran|]
  {
    assert (m.ran + m.deferred)[|m.ran|] == m.deferred[0];
    assert (s.ran + s.deferred)[|m.ran|] == s.deferred[|m.ran| - |s.ran|];
  }

  lemma FateStep(s: State, m: State, step: Step, f: nat, key: Key)
    requires Later(s, m) && Inv(m) && Waiting(m, f, key) && FirstOf(s.deferred, key) < |s.deferred|
    requires |m.ran| <= |s.ran| + FirstOf(s.deferred, key)
    ensures var t, p := Apply(m, step), FirstOf(s.deferred, key);
            Kept(t, f) ==>
              if |t.ran| > |s.ran| + p then ResolvedWith(t, f, s.deferred[p]) else Waiting(t, f, key)
  {
    if !step.DispatchStep? {
      StillWaiting(m, step, f, key);
    } else if !m.closed && m.deferred != [] {
      NextInQueue(s, m);
      DispatchEffect(m, f, key);
    }
  }

  lemma FateKept(m: State, step: Step, f: nat, env: Envelope)
    requires ResolvedWith(m, f, env)
    ensures ResolvedWith(Apply(m, step), f, env) && |Apply(m, step).ran| >= |m.ran|
  {
    StepIsLater(m, step);
  }

  /** The fate of a waiting future, at every moment of every run: as long as nobody cancels or
      drops it, it waits until the first queued envelope of its key has had its turn, and is
      resolved with that one from then on. */
  lemma {:induction false} FateOfWaiting(s: State, steps: seq<Step>, f: nat, key: Key)
    requires Inv(s) && Waiting(s, f, key) && FirstOf(s.deferred, key) < |s.deferred|
    ensures var t, p := Run(s, steps), FirstOf(s.deferred, key);
            Kept(t, f) ==>
              if |t.ran| > |s.ran| + p then ResolvedWith(t, f, s.deferred[p]) else Waiting(t, f, key)
  {
    if steps == [] {
      return;
    }
    var pre, step := steps[..|steps| - 1], steps[|steps| - 1];
    var m, p := Run(s, pre), FirstOf(s.deferred, key);
    FateOfWaiting(s, pre, f, key);
    ProtocolSafety(s, pre);
    SettledForGood(s, pre);
    StepIsLater(m, step);
    if Kept(Apply(m, step), f) {
      KeptBefore(m, Apply(m, step), f);
      if |m.ran| > |s.ran| + p {
        FateKept(m, step, f, s.deferred[p]);
      } else {
        FateStep(s, m, step, f, key);
      }
    }
  }

  /** The same for a report just enqueued, which need not be the first of its key in the queue. */
  lemma FateAfterEnqueue(s: State, env: Envelope, channel: int, steps: seq<Step>, f: nat)
    requires Inv(s) && !s.closed && IsReport(env) && KeyOf(env).Some? && Waiting(s, f, KeyOf(env).value)
    ensures var t, q := Run(Enqueued(s, env, channel), steps), s.deferred + [env];
            var p := FirstOf(q, KeyOf(env).value);
            p < |q| && (Kept(t, f) ==>
              if |t.ran| > |s.ran| + p then ResolvedWith(t, f, q[p]) else Waiting(t, f, KeyOf(env).value))
    ensures Inv(Run(Enqueued(s, env, channel), steps))
  {
    var e, q := Enqueued(s, env, channel), s.deferred + [env];
    assert q[|s.deferred|] == env && e.deferred == q;
    SameTable(s, e);
    assert Waiting(e, f, KeyOf(env).value);
    FateOfWaiting(e, steps, f, KeyOf(env).value);
    ProtocolSafety(e, steps);
  }

  lemma ResolvedIsKept(s: State, f: nat, env: Envelope)
    requires Inv(s)
    ensures ResolvedWith(s, f, env) ==> Kept(s, f)
  {
    assert f < |s.futures| ==> FutureOk(s, f);
  }

  /** When a report reaches a future that was waiting as it was enqueued: once the report's own
      dispatch has run, whatever came in between, exactly if it was the first of its key in the
      queue and nobody cancelled or dropped the future. */
  lemma DeliveredIff(s: State, env: Envelope, channel: int, steps: seq<Step>, f: nat)
    requires Inv(s) && !s.closed && IsReport(env) && KeyOf(env).Some? && Waiting(s, f, KeyOf(env).value)
    requires |Run(Enqueued(s, env, channel), steps).ran| > |s.ran| + |s.deferred|
    ensures var t, q := Run(Enqueued(s, env, channel), steps), s.deferred + [env];
            var p := FirstOf(q, KeyOf(env).value);
            p < |q| && (ResolvedWith(t, f, env) <==> q[p] == env && Kept(t, f))
  {
    FateAfterEnqueue(s, env, channel, steps, f);
    ResolvedIsKept(Run(Enqueued(s, env, channel), steps), f, env);
  }

  lemma KeptByStep(s: State, step: Step, f: nat)
    requires f < |s.futures| && Kept(s, f) && (step.CancelStep? || step.DropStep? ==> step.future != f)
    ensures Kept(Apply(s, step), f)
  {
    if step.DispatchStep? && !s.closed && s.deferred != [] && KeyOf(s.deferred[0]).Some? {
      ResolveAllMeaning(s.futures, ListenersOf(s, KeyOf(s.deferred[0]).value), s.deferred[0]);
    }
  }

  /** A waiting future is kept by any run that neither cancels nor drops it. */
  lemma {:induction false} LeftAloneIsKept(s: State, steps: seq<Step>, f: nat)
    requires f < |s.futures| && Kept(s, f)
    requires forall i :: 0 <= i < |steps| && (steps[i].CancelStep? || steps[i].DropStep?) ==> steps[i].future != f
    ensures Kept(Run(s, steps), f) && f < |Run(s, steps).futures|
  {
    if steps != [] {
      var pre, step := steps[..|steps| - 1], steps[|steps| - 1];
      LeftAloneIsKept(s, pre, f);
      StepIsLater(Run(s, pre), step);
      KeptByStep(Run(s, pre), step, f);
    }
  }

  lemma {:induction false} FirstOfAppend(q: seq<Envelope>, env: Envelope, key: Key)
    requires FirstOf(q, key) < |q|
    ensures FirstOf(q + [env], key) == FirstOf(q, key)
  {
    assert (q + [env])[0] == q[0];
    if KeyOf(q[0]) != Some(key) {
      assert (q + [env])[1..] == q[1..] + [env];
      FirstOfAppend(q[1..], env, key);
    }
  }

  /** A report that finds another one of its key queued before it never reaches any future that
      is waiting then, whatever happens next; and if somebody is waiting, its send is skipped. */
  lemma SecondReportLost(s: State, env: Envelope, channel: int, steps: seq<Step>, f: nat)
    requires Inv(s) && !s.closed && IsReport(env) && KeyOf(env).Some? && Waiting(s, f, KeyOf(env).value)
    requires var p := FirstOf(s.deferred, KeyOf(env).value); p < |s.deferred| && s.deferred[p] != env
    ensures Enqueued(s, env, channel).sends == s.sends
    ensures !ResolvedWith(Run(Enqueued(s, env, channel), steps), f, env)
  {
    FateAfterEnqueue(s, env, channel, steps, f);
    FirstOfAppend(s.deferred, env, KeyOf(env).value);
    ResolvedIsKept(Run(Enqueued(s, env, channel), steps), f, env);
  }

  /** The first dispatch with a single listener. */
  lemma DispatchOfOnly(s: State, key: Key, env: Envelope)
    requires s.listeners == map[key := [0]] && s.futures == [Future(key, Pending)] && !s.closed
    requires s.deferred != [] && s.deferred[0] == env && KeyOf(env) == Some(key)
    ensures RunDeferred(s) == s.(listeners := map[], futures := [Future(key, Resolved(env))],
                                 deferred := s.deferred[1..], ran := s.ran + [env])
  {
    ResolveAllMeaning(s.futures, [0], env);
    assert ResolveAll(s.futures, [0], env) == [Future(key, Resolved(env))];
  }

  lemma RunOfFive(s: State, steps: seq<Step>)
    requires |steps| == 5
    ensures Run(s, steps) == Apply(Apply(Apply(Apply(Apply(s, steps[0]), steps[1]), steps[2]), steps[3]), steps[4])
  {
    assert steps[..4][..3] == steps[..3] && steps[..3][..2] == steps[..2] && steps[..2][..1] == steps[..1];
    assert steps[..1][..0] == [];
    assert Run(s, steps[..1]) == Apply(s, steps[0]);
    assert Run(s, steps[..2]) == Apply(Run(s, steps[..1]), steps[1]);
    assert Run(s, steps[..3]) == Apply(Run(s, steps[..2]), steps[2]);
    assert Run(s, steps[..4]) == Apply(Run(s, steps[..3]), steps[3]);
  }

  /** One listener, two reports of its key queued, nothing sent. */
  function TwoQueued(key: Key, first: Envelope, second: Envelope): State {
    IDLE.(listeners := map[key := [0]], futures := [Future(key, Pending)], deferred := [first, second])
  }

  lemma BothAreHeld(key: Key, first: Envelope, second: Envelope, c1: int, c2: int)
    requires IsReport(first) && IsReport(second) && KeyOf(first) == KeyOf(second) == Some(key)
    ensures Enqueued(Enqueued(Watch(IDLE, key), first, c1), second, c2) == TwoQueued(key, first, second)
  {
    var s1 := Watch(IDLE, key);
    assert ListenersOf(IDLE, key) + [0] == [0];
    assert s1.listeners == map[key := [0]] && s1.futures == [Future(key, Pending)];
    assert Enqueued(s1, first, c1) == s1.(deferred := [first]);
    assert Enqueued(s1.(deferred := [first]), second, c2) == s1.(deferred := [first, second]);
  }

  lemma BothAreDispatched(key: Key, first: Envelope, second: Envelope)
    requires KeyOf(first) == KeyOf(second) == Some(key)
    ensures RunDeferred(RunDeferred(TwoQueued(key, first, second)))
         == IDLE.(futures := [Future(key, Resolved(first))], ran := [first, second])
  {
    var s := TwoQueued(key, first, second);
    DispatchOfOnly(s, key, first);
    var t := RunDeferred(s);
    assert t.deferred == [second] && ListenersOf(t, key) == [] && t.listeners - {key} == map[];
    assert t.ran + [second] == [first, second] && t.deferred[1..] == [];
  }

  /** Such a loss does occur: one listener, two reports before the first dispatch. */
  lemma ReportIsLost(first: Envelope, second: Envelope, c1: int, c2: int)
    requires IsReport(first) && IsReport(second) && KeyOf(first).Some? && KeyOf(second) == KeyOf(first)
    requires first != second
    ensures var t := Run(IDLE, [WatchStep(KeyOf(first).value), EnqueueStep(first, c1), EnqueueStep(second, c2),
                                DispatchStep, DispatchStep]);
            t.sends == [] && t.deferred == [] && t.ran == [first, second]
            && t.futures == [Future(KeyOf(first).value, Resolved(first))]
  {
    var key := KeyOf(first).value;
    RunOfFive(IDLE, [WatchStep(key), EnqueueStep(first, c1), EnqueueStep(second, c2), DispatchStep, DispatchStep]);
    BothAreHeld(key, first, second, c1, c2);
    BothAreDispatched(key, first, second);
  }

  lemma LastNotStar()
    ensures forall topic :: topic in ON_DEMAND_REPORT_TOPICS ==> topic != "" && topic[|topic| - 1] != '*'
  { }

  /** Reports delivered by the in-process path carry the subscription pattern as their topic, so
      they are always sent and never dispatched: only the stream path can satisfy a waiting
      command. */
  lemma PatternNeverOnDemand(s: State, env: Envelope, channel: int)
    requires env.topic in Intake.SUBSCRIBE_PATTERNS && !s.closed
    ensures Enqueued(s, env, channel) == s.(sends := s.sends + [(env, channel)])
  {
    var prefix := Intake.FamilyOf(env.topic);
    assert env.topic[|env.topic| - 1] == '*';
    LastNotStar();
  }
}
