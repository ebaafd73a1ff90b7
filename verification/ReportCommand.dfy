/** The request/response flow of a report command, run by any number of operators at once.

    A command first registers one future per target, then waits for all of them.  It either
    completes, or times out: the timeout first cancels the pending futures and only in a later
    step runs the clean-up, so dispatches may come in between. */
module ReportCommand {
  import opened Wrappers
  import opened Seqs
  import opened Forwarder

  /** Target strategy and the future registered for it. */
  type Request = (string, nat)

  datatype Phase = Waiting | TimedOut | Finished

  datatype Command = Command(topic: string, channel: int, requests: seq<Request>, phase: Phase,
                             replied: seq<string>, missing: seq<string>)

  datatype System = System(fw: State, commands: seq<Command>)

  // ─── the pieces of one command ───────────────────────────────────────────

  function WatchAll(s: State, topic: string, targets: seq<string>): State {
    if targets == [] then s else Watch(WatchAll(s, topic, targets[..|targets| - 1]), (topic, targets[|targets| - 1]))
  }

  /** The futures handed out by `WatchAll`: consecutive, starting at `first`. */
  function Requests(targets: seq<string>, first: nat): seq<Request> {
    seq(|targets|, i requires 0 <= i < |targets| => (targets[i], first + i))
  }

  function TargetsOf(requests: seq<Request>): seq<string> {
    if requests == [] then [] else TargetsOf(requests[..|requests| - 1]) + [requests[|requests| - 1].0]
  }

  lemma {:induction false} RequestsTargets(targets: seq<string>, first: nat)
    ensures TargetsOf(Requests(targets, first)) == targets
  {
    if targets != [] {
      var rs := Requests(targets, first);
      assert rs[..|rs| - 1] == Requests(targets[..|targets| - 1], first);
      RequestsTargets(targets[..|targets| - 1], first);
    }
  }

  lemma {:induction false} EachTargetOnce(targets: seq<string>, sid: string)
    requires Distinct(targets)
    ensures multiset(targets)[sid] <= 1
  {
    if targets != [] {
      EachTargetOnce(targets[1..], sid);
      assert targets == [targets[0]] + targets[1..];
    }
  }

  function CancelAll(s: State, requests: seq<Request>): State {
    if requests == [] then s else Cancel(CancelAll(s, requests[..|requests| - 1]), requests[|requests| - 1].1)
  }

  /** The clean-up loop after a timeout: cancel what is still pending, then un-register. */
  function Abandoned(s: State, topic: string, requests: seq<Request>): State {
    if requests == [] then s
    else
      var r := requests[|requests| - 1];
      Drop(Cancel(Abandoned(s, topic, requests[..|requests| - 1]), r.1), (topic, r.0), r.1)
  }

  /** The report a future was resolved with. */
  function ReplyOf(s: State, f: nat): Option<Envelope> {
    if f < |s.futures| && s.futures[f].status.Resolved? then Some(s.futures[f].status.env) else None
  }

  function Replied(s: State, requests: seq<Request>): seq<string> {
    if requests == [] then []
    else
      var r := requests[|requests| - 1];
      Replied(s, requests[..|requests| - 1]) + (if ReplyOf(s, r.1).Some? then [r.0] else [])
  }

  function Missing(s: State, requests: seq<Request>): seq<string> {
    if requests == [] then []
    else
      var r := requests[|requests| - 1];
      Missing(s, requests[..|requests| - 1]) + (if ReplyOf(s, r.1).None? then [r.0] else [])
  }

  /** Post every reply in the channel of the command, through the forwarder. */
  function RepostAll(s: State, requests: seq<Request>, channel: int): State {
    if requests == [] then s
    else
      var t := RepostAll(s, requests[..|requests| - 1], channel);
      var reply := ReplyOf(s, requests[|requests| - 1].1);
      if reply.Some? then Enqueued(t, reply.value, channel) else t
  }

  // The same pieces in the source's own form.

  method OpenRequests(fw: DiscordForwarder, topic: string, targets: seq<string>) returns (requests: seq<Request>)
    modifies fw
    ensures fw.View() == WatchAll(old(fw.View()), topic, targets)
    ensures requests == Requests(targets, old(|fw.futures|))
  {
    requests := [];
    for i := 0 to |targets|
      invariant fw.View() == WatchAll(old(fw.View()), topic, targets[..i])
      invariant |fw.futures| == old(|fw.futures|) + i
      invariant requests == Requests(targets[..i], old(|fw.futures|))
    {
      assert targets[..i + 1][..i] == targets[..i];
      var future := fw.WatchReport(topic, targets[i]);
      requests := requests + [(targets[i], future)];
    }
    assert targets[..|targets|] == targets;
  }

  method AbandonRequests(fw: DiscordForwarder, topic: string, requests: seq<Request>)
    modifies fw
    ensures fw.View() == Abandoned(old(fw.View()), topic, requests)
  {
    for i := 0 to |requests|
      invariant fw.View() == Abandoned(old(fw.View()), topic, requests[..i])
    {
      assert requests[..i + 1][..i] == requests[..i];
      var (sid, future) := requests[i];
      fw.SettleFuture(future, Cancelled);
      fw.DropReportListener(topic, sid, future);
    }
    assert requests[..|requests|] == requests;
  }

  method SettleReplies(fw: DiscordForwarder, requests: seq<Request>, channel: int)
    returns (replied: seq<string>, missing: seq<string>)
    modifies fw
    ensures fw.View() == RepostAll(old(fw.View()), requests, channel)
    ensures replied == Replied(old(fw.View()), requests) && missing == Missing(old(fw.View()), requests)
  {
    replied, missing := [], [];
    var futures := fw.futures;
    for i := 0 to |requests|
      invariant fw.View() == RepostAll(old(fw.View()), requests[..i], channel)
      invariant replied == Replied(old(fw.View()), requests[..i]) && missing == Missing(old(fw.View()), requests[..i])
    {
      assert requests[..i + 1][..i] == requests[..i];
      var (sid, future) := requests[i];
      if future < |futures| && futures[future].status.Resolved? {
        replied := replied + [sid];
        fw.Enqueue(futures[future].status.env, channel);
      } else {
        missing := missing + [sid];
      }
    }
    assert requests[..|requests|] == requests;
  }

  // ─── the step system ─────────────────────────────────────────────────────

  datatype Step =
    | Begin(topic: string, channel: int, targets: seq<string>)
    | Report(env: Envelope, channel: int)
    | Dispatch
    | Complete(c: nat)
    | TimeoutFires(c: nat)
    | TimeoutHandled(c: nat)

  predicate AllDone(s: State, requests: seq<Request>) {
    forall i :: 0 <= i < |requests| ==> s.Done(requests[i].1)
  }

  predicate Enabled(s: System, step: Step) {
    match step
    case Begin(_, _, targets) => Distinct(targets)
    case Complete(c) => c < |s.commands| && s.commands[c].phase.Waiting? && AllDone(s.fw, s.commands[c].requests)
    case TimeoutFires(c) => c < |s.commands| && s.commands[c].phase.Waiting?
    case TimeoutHandled(c) => c < |s.commands| && s.commands[c].phase.TimedOut?
    case _ => true
  }

  function Finish(s: System, c: nat, fw: State): System
    requires c < |s.commands|
  {
    var cmd := s.commands[c];
    System(RepostAll(fw, cmd.requests, cmd.channel),
           s.commands[c := cmd.(phase := Finished, replied := Replied(fw, cmd.requests), missing := Missing(fw, cmd.requests))])
  }

  function Apply(s: System, step: Step): System
    requires Enabled(s, step)
  {
    match step
    case Begin(topic, channel, targets) =>
      System(WatchAll(s.fw, topic, targets),
             s.commands + [Command(topic, channel, Requests(targets, |s.fw.futures|), Waiting, [], [])])
    case Report(env, channel) => s.(fw := Enqueued(s.fw, env, channel))
    case Dispatch => s.(fw := RunDeferred(s.fw))
    case Complete(c) => Finish(s, c, s.fw)
    case TimeoutFires(c) =>
      System(CancelAll(s.fw, s.commands[c].requests), s.commands[c := s.commands[c].(phase := TimedOut)])
    case TimeoutHandled(c) =>
      Finish(s, c, Abandoned(s.fw, s.commands[c].topic, s.commands[c].requests))
  }

  // ─── what each piece does to the table ───────────────────────────────────

  predicate Owns(requests: seq<Request>, f: nat) {
    exists i :: 0 <= i < |requests| && requests[i].1 == f
  }

  /** Each request names its own future: created for its topic and target. */
  ghost predicate RequestsOk(s: State, topic: string, requests: seq<Request>) {
    forall i :: 0 <= i < |requests| ==>
      requests[i].1 < |s.futures| && s.futures[requests[i].1].key == (topic, requests[i].0)
  }

  /** Listing and state of one future are the same in both tables. */
  predicate SameFuture(s: State, t: State, f: nat) {
    f < |s.futures| && f < |t.futures| && t.futures[f] == s.futures[f] && (t.Listed(f) <==> s.Listed(f))
  }

  lemma {:induction false} WatchAllKeeps(s: State, topic: string, targets: seq<string>)
    requires Inv(s)
    ensures var t := WatchAll(s, topic, targets);
            Inv(t) && |t.futures| == |s.futures| + |targets|
            && (forall f :: 0 <= f < |s.futures| ==> SameFuture(s, t, f))
            && (forall i :: 0 <= i < |targets| ==> t.futures[|s.futures| + i] == Future((topic, targets[i]), Pending))
  {
    if targets != [] {
      var pre, sid := targets[..|targets| - 1], targets[|targets| - 1];
      var m, t := WatchAll(s, topic, pre), WatchAll(s, topic, targets);
      WatchAllKeeps(s, topic, pre);
      Forwarder.WatchKeeps(m, (topic, sid));
      forall f | 0 <= f < |s.futures| ensures SameFuture(s, t, f) {
        assert SameFuture(s, m, f);
      }
      forall i | 0 <= i < |targets| ensures t.futures[|s.futures| + i] == Future((topic, targets[i]), Pending) {
        if i < |pre| {
          assert pre[i] == targets[i];
        }
      }
    }
  }

  lemma OwnsStep(requests: seq<Request>, f: nat)
    requires requests != []
    ensures Owns(requests, f) <==> Owns(requests[..|requests| - 1], f) || f == requests[|requests| - 1].1
  {
    var pre := requests[..|requests| - 1];
    if i :| 0 <= i < |requests| && requests[i].1 == f {
      if i < |pre| {
        assert pre[i].1 == f;
      }
    }
    if i :| 0 <= i < |pre| && pre[i].1 == f {
      assert requests[i].1 == f;
    }
  }

  lemma {:induction false} CancelAllKeeps(s: State, requests: seq<Request>)
    requires Inv(s)
    ensures var t := CancelAll(s, requests);
            Inv(t) && |t.futures| == |s.futures| && t.listeners == s.listeners
            && (forall f :: 0 <= f < |s.futures| ==>
                  t.futures[f] == if Owns(requests, f) && s.futures[f].status.Pending?
                                  then s.futures[f].(status := Cancelled) else s.futures[f])
  {
    if requests != [] {
      var pre := requests[..|requests| - 1];
      CancelAllKeeps(s, pre);
      CancelKeeps(CancelAll(s, pre), requests[|pre|].1);
      forall f: nat ensures Owns(requests, f) <==> Owns(pre, f) || f == requests[|pre|].1 {
        OwnsStep(requests, f);
      }
    }
  }

  lemma DropUnlists(s: State, key: Key, f: nat)
    requires Inv(s) && f < |s.futures| && s.futures[f].key == key
    ensures var t := Drop(s, key, f);
            Inv(t) && t.futures == s.futures && !t.Listed(f)
            && forall g :: 0 <= g < |s.futures| && g != f ==> SameFuture(s, t, g)
  {
    DropKeeps(s, key, f);
    assert ListOk(s, key);
    if f in ListenersOf(s, key) {
      RemoveDistinct(s.listeners[key], f);
    }
  }

  /** Un-registered and settled, with any reply it had. */
  predicate LetGo(s: State, t: State, f: nat) {
    f < |s.futures| && t.Done(f) && !t.Listed(f) && ReplyOf(t, f) == ReplyOf(s, f) && t.futures[f].key == s.futures[f].key
  }

  lemma AbandonOne(s: State, topic: string, r: Request)
    requires Inv(s) && r.1 < |s.futures| && s.futures[r.1].key == (topic, r.0)
    ensures var t := Drop(Cancel(s, r.1), (topic, r.0), r.1);
            Inv(t) && |t.futures| == |s.futures| && LetGo(s, t, r.1)
            && (forall f :: 0 <= f < |s.futures| && f != r.1 ==> SameFuture(s, t, f))
  {
    var m := Cancel(s, r.1);
    CancelKeeps(s, r.1);
    DropUnlists(m, (topic, r.0), r.1);
    forall f | 0 <= f < |s.futures| && f != r.1 ensures SameFuture(s, Drop(m, (topic, r.0), r.1), f) {
      assert SameFuture(m, Drop(m, (topic, r.0), r.1), f);
    }
  }

  lemma {:induction false} AbandonedKeeps(s: State, topic: string, requests: seq<Request>)
    requires Inv(s) && RequestsOk(s, topic, requests)
    ensures var t := Abandoned(s, topic, requests);
            Inv(t) && |t.futures| == |s.futures|
            && forall f :: 0 <= f < |s.futures| ==> if Owns(requests, f) then LetGo(s, t, f) else SameFuture(s, t, f)
  {
    if requests != [] {
      var pre, r := requests[..|requests| - 1], requests[|requests| - 1];
      assert forall i :: 0 <= i < |pre| ==> pre[i] == requests[i];
      var m, t := Abandoned(s, topic, pre), Abandoned(s, topic, requests);
      AbandonedKeeps(s, topic, pre);
      assert if Owns(pre, r.1) then LetGo(s, m, r.1) else SameFuture(s, m, r.1);
      AbandonOne(m, topic, r);
      forall f | 0 <= f < |s.futures| ensures if Owns(requests, f) then LetGo(s, t, f) else SameFuture(s, t, f) {
        OwnsStep(requests, f);
        assert f != r.1 ==> SameFuture(m, t, f);
      }
    }
  }

  lemma {:induction false} RepostAllKeeps(s: State, requests: seq<Request>, channel: int)
    ensures var t := RepostAll(s, requests, channel);
            t.listeners == s.listeners && t.futures == s.futures && t.dropped == s.dropped && t.closed == s.closed
  {
    if requests != [] {
      RepostAllKeeps(s, requests[..|requests| - 1], channel);
    }
  }

  // ─── the invariant ───────────────────────────────────────────────────────

  /** The receipt is right: the reported lists split the targets by whether they replied. */
  ghost predicate SettledAs(s: State, cmd: Command) {
    && AllDone(s, cmd.requests)
    && cmd.replied == Replied(s, cmd.requests) && cmd.missing == Missing(s, cmd.requests)
  }

  ghost predicate CommandOk(s: System, c: nat)
    requires c < |s.commands|
  {
    var cmd := s.commands[c];
    && RequestsOk(s.fw, cmd.topic, cmd.requests) && Distinct(TargetsOf(cmd.requests))
    && (cmd.phase.Waiting? ==> forall f: nat :: Owns(cmd.requests, f) ==> !WasCancelled(s.fw, f))
    && (cmd.phase.Finished? ==> forall f: nat :: Owns(cmd.requests, f) ==> !s.fw.Listed(f))
    && (cmd.phase.Finished? ==> SettledAs(s.fw, cmd))
  }

  ghost predicate SysInv(s: System) {
    && Inv(s.fw)
    && (forall c: nat :: c < |s.commands| ==> CommandOk(s, c))
    && (forall c: nat, d: nat, f: nat :: c < d < |s.commands| && Owns(s.commands[c].requests, f) ==>
          !Owns(s.commands[d].requests, f))
  }

  /** Futures outside `own` keep key, status and listing; nothing new is listed. */
  ghost predicate OnlyTouches(s: State, t: State, own: seq<Request>) {
    && |t.futures| >= |s.futures|
    && forall f :: 0 <= f < |s.futures| && !Owns(own, f) ==> SameFuture(s, t, f)
  }

  lemma {:induction false} SameReplies(s: State, t: State, requests: seq<Request>)
    requires forall i :: 0 <= i < |requests| ==> ReplyOf(t, requests[i].1) == ReplyOf(s, requests[i].1)
    ensures Replied(t, requests) == Replied(s, requests) && Missing(t, requests) == Missing(s, requests)
  {
    if requests != [] {
      var pre := requests[..|requests| - 1];
      assert forall i :: 0 <= i < |pre| ==> pre[i] == requests[i];
      SameReplies(s, t, pre);
    }
  }

  /** A command whose futures are untouched stays as it is. */
  lemma CommandUntouched(s: System, t: System, c: nat)
    requires c < |s.commands| && c < |t.commands| && t.commands[c] == s.commands[c] && CommandOk(s, c)
    requires forall f: nat :: Owns(s.commands[c].requests, f) && f < |s.fw.futures| ==> SameFuture(s.fw, t.fw, f)
    ensures CommandOk(t, c)
  {
    var cmd := s.commands[c];
    forall i | 0 <= i < |cmd.requests| ensures SameFuture(s.fw, t.fw, cmd.requests[i].1) {
      assert Owns(cmd.requests, cmd.requests[i].1);
    }
    forall f: nat | Owns(cmd.requests, f) ensures SameFuture(s.fw, t.fw, f) {
      var i :| 0 <= i < |cmd.requests| && cmd.requests[i].1 == f;
    }
    SameReplies(s.fw, t.fw, cmd.requests);
  }

  lemma DispatchTouches(s: State, f: nat)
    requires Inv(s) && f < |s.futures|
    ensures var t := RunDeferred(s);
            f < |t.futures| && t.futures[f].key == s.futures[f].key
            && (t.Listed(f) ==> s.Listed(f))
            && (!s.futures[f].status.Pending? ==> t.futures[f] == s.futures[f])
            && (WasCancelled(t, f) ==> WasCancelled(s, f))
  {
    StepIsLater(s, DispatchStep);
    if !s.closed && s.deferred != [] && KeyOf(s.deferred[0]).Some? {
      ResolveAllMeaning(s.futures, ListenersOf(s, KeyOf(s.deferred[0]).value), s.deferred[0]);
    }
  }

  lemma DispatchKeepsCommand(s: System, c: nat)
    requires SysInv(s) && c < |s.commands|
    ensures CommandOk(Apply(s, Dispatch), c)
  {
    var t := Apply(s, Dispatch);
    var cmd := s.commands[c];
    assert CommandOk(s, c);
    forall f: nat | f < |s.fw.futures|
      ensures var u := t.fw;
              f < |u.futures| && u.futures[f].key == s.fw.futures[f].key && (u.Listed(f) ==> s.fw.Listed(f))
              && (!s.fw.futures[f].status.Pending? ==> u.futures[f] == s.fw.futures[f])
              && (WasCancelled(u, f) ==> WasCancelled(s.fw, f)) {
      DispatchTouches(s.fw, f);
    }
    forall f: nat | Owns(cmd.requests, f) ensures f < |s.fw.futures| {
      var i :| 0 <= i < |cmd.requests| && cmd.requests[i].1 == f;
    }
    if cmd.phase.Finished? {
      SameReplies(s.fw, t.fw, cmd.requests);
    }
  }

  /** A step that touches only command `c` keeps the invariant if it is right about `c`. */
  lemma SoloStep(s: System, t: System, c: nat)
    requires SysInv(s) && Inv(t.fw) && c < |s.commands|
    requires |t.commands| == |s.commands| && t.commands == s.commands[c := t.commands[c]]
    requires t.commands[c].requests == s.commands[c].requests
    requires OnlyTouches(s.fw, t.fw, s.commands[c].requests) && CommandOk(t, c)
    ensures SysInv(t)
  {
    forall d: nat | d < |t.commands| ensures CommandOk(t, d) {
      if d != c {
        assert CommandOk(s, d);
        forall f: nat | Owns(s.commands[d].requests, f) && f < |s.fw.futures| ensures SameFuture(s.fw, t.fw, f) {
          assert !Owns(s.commands[c].requests, f);
        }
        CommandUntouched(s, t, d);
      }
    }
  }

  lemma OwnedExists(s: System, c: nat, f: nat)
    requires c < |s.commands| && CommandOk(s, c) && Owns(s.commands[c].requests, f)
    ensures f < |s.fw.futures| && s.fw.futures[f].key.0 == s.commands[c].topic
  {
    var i :| 0 <= i < |s.commands[c].requests| && s.commands[c].requests[i].1 == f;
  }

  lemma ResolvedNotListed(s: State, f: nat)
    requires Inv(s) && f < |s.futures| && s.futures[f].status.Resolved?
    ensures !s.Listed(f)
  {
    assert ListOk(s, s.futures[f].key);
  }

  lemma CompleteKeeps(s: System, c: nat)
    requires SysInv(s) && Enabled(s, Complete(c))
    ensures SysInv(Apply(s, Complete(c))) && OnlyTouches(s.fw, Apply(s, Complete(c)).fw, [])
  {
    var t := Apply(s, Complete(c));
    var cmd := s.commands[c];
    RepostAllKeeps(s.fw, cmd.requests, cmd.channel);
    SameTable(s.fw, t.fw);
    assert CommandOk(s, c);
    forall f: nat | Owns(cmd.requests, f) ensures !t.fw.Listed(f) {
      OwnedExists(s, c, f);
      var i :| 0 <= i < |cmd.requests| && cmd.requests[i].1 == f;
      assert s.fw.Done(cmd.requests[i].1) && !WasCancelled(s.fw, f);
      ResolvedNotListed(s.fw, f);
    }
    SameReplies(s.fw, t.fw, cmd.requests);
    SoloStep(s, t, c);
  }

  lemma TimeoutFiresKeeps(s: System, c: nat)
    requires SysInv(s) && Enabled(s, TimeoutFires(c))
    ensures SysInv(Apply(s, TimeoutFires(c)))
    ensures OnlyTouches(s.fw, Apply(s, TimeoutFires(c)).fw, s.commands[c].requests)
  {
    var t := Apply(s, TimeoutFires(c));
    CancelAllKeeps(s.fw, s.commands[c].requests);
    assert CommandOk(s, c);
    forall f | 0 <= f < |s.fw.futures| && !Owns(s.commands[c].requests, f) ensures SameFuture(s.fw, t.fw, f) { }
    SoloStep(s, t, c);
  }

  lemma AbandonedIsSettled(s: System, c: nat, m: State)
    requires SysInv(s) && c < |s.commands| && m == Abandoned(s.fw, s.commands[c].topic, s.commands[c].requests)
    ensures AllDone(m, s.commands[c].requests) && RequestsOk(m, s.commands[c].topic, s.commands[c].requests)
    ensures forall f: nat :: Owns(s.commands[c].requests, f) ==> !m.Listed(f)
  {
    var cmd := s.commands[c];
    assert CommandOk(s, c);
    AbandonedKeeps(s.fw, cmd.topic, cmd.requests);
    forall i | 0 <= i < |cmd.requests|
      ensures m.Done(cmd.requests[i].1) && m.futures[cmd.requests[i].1].key == (cmd.topic, cmd.requests[i].0) {
      assert Owns(cmd.requests, cmd.requests[i].1);
      assert LetGo(s.fw, m, cmd.requests[i].1);
    }
    forall f: nat | Owns(cmd.requests, f) ensures !m.Listed(f) {
      OwnedExists(s, c, f);
      assert LetGo(s.fw, m, f);
    }
  }

  lemma TimeoutHandledKeeps(s: System, c: nat)
    requires SysInv(s) && Enabled(s, TimeoutHandled(c))
    ensures SysInv(Apply(s, TimeoutHandled(c)))
    ensures OnlyTouches(s.fw, Apply(s, TimeoutHandled(c)).fw, s.commands[c].requests)
  {
    var t := Apply(s, TimeoutHandled(c));
    var cmd := s.commands[c];
    var m := Abandoned(s.fw, cmd.topic, cmd.requests);
    assert CommandOk(s, c);
    AbandonedKeeps(s.fw, cmd.topic, cmd.requests);
    RepostAllKeeps(m, cmd.requests, cmd.channel);
    SameTable(m, t.fw);
    forall f | 0 <= f < |s.fw.futures| && !Owns(cmd.requests, f) ensures SameFuture(s.fw, t.fw, f) {
      assert SameFuture(s.fw, m, f);
    }
    AbandonedIsSettled(s, c, m);
    SameReplies(m, t.fw, cmd.requests);
    assert RequestsOk(t.fw, cmd.topic, cmd.requests);
    SoloStep(s, t, c);
  }

  lemma NewRequests(s: State, topic: string, targets: seq<string>)
    requires Inv(s)
    ensures var t, requests := WatchAll(s, topic, targets), Requests(targets, |s.futures|);
            RequestsOk(t, topic, requests)
            && forall f: nat :: Owns(requests, f) ==> f >= |s.futures| && !WasCancelled(t, f)
  {
    var t, requests := WatchAll(s, topic, targets), Requests(targets, |s.futures|);
    WatchAllKeeps(s, topic, targets);
    forall i | 0 <= i < |requests| ensures t.futures[requests[i].1] == Future((topic, requests[i].0), Pending) {
      assert t.futures[|s.futures| + i] == Future((topic, targets[i]), Pending);
    }
  }

  lemma NewCommandOk(s: System, topic: string, channel: int, targets: seq<string>)
    requires Inv(s.fw) && Distinct(targets)
    ensures CommandOk(Apply(s, Begin(topic, channel, targets)), |s.commands|)
  {
    NewRequests(s.fw, topic, targets);
    RequestsTargets(targets, |s.fw.futures|);
  }

  lemma OldCommandOk(s: System, topic: string, channel: int, targets: seq<string>, c: nat)
    requires SysInv(s) && Distinct(targets) && c < |s.commands|
    ensures CommandOk(Apply(s, Begin(topic, channel, targets)), c)
  {
    WatchAllKeeps(s.fw, topic, targets);
    assert CommandOk(s, c);
    CommandUntouched(s, Apply(s, Begin(topic, channel, targets)), c);
  }

  lemma NewFuturesOnly(s: System, topic: string, targets: seq<string>, c: nat, f: nat)
    requires Inv(s.fw) && c < |s.commands| && CommandOk(s, c) && Owns(s.commands[c].requests, f)
    ensures !Owns(Requests(targets, |s.fw.futures|), f)
  {
    NewRequests(s.fw, topic, targets);
    OwnedExists(s, c, f);
  }

  lemma BeginKeeps(s: System, topic: string, channel: int, targets: seq<string>)
    requires SysInv(s) && Distinct(targets)
    ensures SysInv(Apply(s, Begin(topic, channel, targets)))
    ensures OnlyTouches(s.fw, Apply(s, Begin(topic, channel, targets)).fw, [])
  {
    var t := Apply(s, Begin(topic, channel, targets));
    WatchAllKeeps(s.fw, topic, targets);
    NewCommandOk(s, topic, channel, targets);
    forall c: nat | c < |s.commands| ensures CommandOk(t, c) {
      OldCommandOk(s, topic, channel, targets, c);
    }
    forall c: nat, d: nat, f: nat | c < d < |t.commands| && Owns(t.commands[c].requests, f)
      ensures !Owns(t.commands[d].requests, f)
    {
      assert CommandOk(s, c);
      if d == |s.commands| {
        NewFuturesOnly(s, topic, targets, c, f);
      }
    }
  }

  lemma StepKeepsSysInv(s: System, step: Step)
    requires SysInv(s) && Enabled(s, step)
    ensures SysInv(Apply(s, step))
  {
    match step
    case Begin(topic, channel, targets) => BeginKeeps(s, topic, channel, targets);
    case Report(env, channel) =>
      var t := Apply(s, step);
      SameTable(s.fw, t.fw);
      forall c: nat | c < |t.commands| ensures CommandOk(t, c) {
        assert CommandOk(s, c);
        CommandUntouched(s, t, c);
      }
    case Dispatch =>
      Forwarder.StepKeepsInv(s.fw, DispatchStep);
      forall c: nat | c < |s.commands| ensures CommandOk(Apply(s, step), c) {
        DispatchKeepsCommand(s, c);
      }
    case Complete(c) => CompleteKeeps(s, c);
    case TimeoutFires(c) => TimeoutFiresKeeps(s, c);
    case TimeoutHandled(c) => TimeoutHandledKeeps(s, c);
  }

  ghost predicate Follows(s: System, step: Step, t: System) {
    Enabled(s, step) && t == Apply(s, step)
  }

  /** `states` is a run of the step system: it starts with no command and each state follows
      from the one before by an enabled step. */
  ghost predicate IsRun(states: seq<System>, steps: seq<Step>) {
    && |states| == |steps| + 1 && states[0] == System(Forwarder.IDLE, [])
    && forall i :: 0 <= i < |steps| ==> Follows(states[i], steps[i], states[i + 1])
  }

  lemma {:induction false} EveryRunKeepsSysInv(states: seq<System>, steps: seq<Step>, n: nat)
    requires IsRun(states, steps) && n <= |steps|
    ensures SysInv(states[n])
  {
    if n > 0 {
      EveryRunKeepsSysInv(states, steps, n - 1);
      assert Follows(states[n - 1], steps[n - 1], states[n]);
      StepKeepsSysInv(states[n - 1], steps[n - 1]);
    }
  }

  // ─── main results ────────────────────────────────────────────────────────

  /** A finished command leaves nothing behind: at its end and for ever after, none of its
      futures is in the listener table. */
  lemma FinishedLeavesNothing(states: seq<System>, steps: seq<Step>, n: nat, c: nat, f: nat)
    requires IsRun(states, steps) && n <= |steps| && c < |states[n].commands|
    requires states[n].commands[c].phase.Finished? && Owns(states[n].commands[c].requests, f)
    ensures !states[n].fw.Listed(f)
  {
    EveryRunKeepsSysInv(states, steps, n);
    assert CommandOk(states[n], c);
  }

  /** Starting, completing or timing out one command neither removes nor settles anybody
      else's future. */
  lemma OthersUndisturbed(states: seq<System>, steps: seq<Step>, n: nat, f: nat)
    requires IsRun(states, steps) && n < |steps| && f < |states[n].fw.futures|
    requires !steps[n].Dispatch?
    requires steps[n].TimeoutFires? || steps[n].TimeoutHandled? ==>
               steps[n].c < |states[n].commands| && !Owns(states[n].commands[steps[n].c].requests, f)
    ensures SameFuture(states[n].fw, states[n + 1].fw, f)
  {
    EveryRunKeepsSysInv(states, steps, n);
    assert Follows(states[n], steps[n], states[n + 1]);
    match steps[n]
    case Begin(topic, channel, targets) => BeginKeeps(states[n], topic, channel, targets);
    case Complete(c) => CompleteKeeps(states[n], c);
    case TimeoutFires(c) => TimeoutFiresKeeps(states[n], c);
    case TimeoutHandled(c) => TimeoutHandledKeeps(states[n], c);
    case _ =>
  }

  lemma {:induction false} SplitTargets(s: State, requests: seq<Request>)
    ensures multiset(Replied(s, requests)) + multiset(Missing(s, requests)) == multiset(TargetsOf(requests))
  {
    if requests != [] {
      SplitTargets(s, requests[..|requests| - 1]);
    }
  }

  lemma {:induction false} RepliedMeans(s: State, requests: seq<Request>, sid: string)
    ensures sid in Replied(s, requests) <==> exists i :: 0 <= i < |requests| && requests[i].0 == sid && ReplyOf(s, requests[i].1).Some?
  {
    if requests != [] {
      var pre, last := requests[..|requests| - 1], requests[|requests| - 1];
      RepliedMeans(s, pre, sid);
      if last.0 == sid && ReplyOf(s, last.1).Some? {
        assert requests[|pre|] == last;
      }
      if i :| 0 <= i < |pre| && pre[i].0 == sid && ReplyOf(s, pre[i].1).Some? {
        assert requests[i] == pre[i];
      }
    }
  }

  /** Both lists keep the order of the targets: what is said of some requests comes before what is
      said of later ones, and of one request it is its target or nothing. */
  lemma {:induction false} ReceiptKeepsOrder(s: State, a: seq<Request>, b: seq<Request>)
    ensures Replied(s, a + b) == Replied(s, a) + Replied(s, b) && Missing(s, a + b) == Missing(s, a) + Missing(s, b)
    ensures |a| == 1 ==> if ReplyOf(s, a[0].1).Some? then Replied(s, a) == [a[0].0] && Missing(s, a) == []
                         else Replied(s, a) == [] && Missing(s, a) == [a[0].0]
  {
    if |a| == 1 {
      assert a[..0] == [] && Replied(s, a[..0]) == [] && Missing(s, a[..0]) == [];
    }
    if b == [] {
      assert a + b == a;
    } else {
      assert (a + b)[..|a + b| - 1] == a + b[..|b| - 1];
      ReceiptKeepsOrder(s, a, b[..|b| - 1]);
    }
  }

  /** The receipt of a finished command: the replied and missing lists together are its
      targets, each once, and the replied ones are those whose future got a report. */
  lemma ReceiptPartitionsTargets(states: seq<System>, steps: seq<Step>, n: nat, c: nat, sid: string)
    requires IsRun(states, steps) && n <= |steps| && c < |states[n].commands|
    requires states[n].commands[c].phase.Finished?
    ensures var cmd := states[n].commands[c];
            multiset(cmd.replied) + multiset(cmd.missing) == multiset(TargetsOf(cmd.requests))
            && !(sid in cmd.replied && sid in cmd.missing)
            && (sid in cmd.replied <==>
                  exists i :: 0 <= i < |cmd.requests| && cmd.requests[i].0 == sid
                              && ReplyOf(states[n].fw, cmd.requests[i].1).Some?)
  {
    EveryRunKeepsSysInv(states, steps, n);
    var cmd := states[n].commands[c];
    assert CommandOk(states[n], c);
    SplitTargets(states[n].fw, cmd.requests);
    EachTargetOnce(TargetsOf(cmd.requests), sid);
    assert multiset(cmd.replied)[sid] + multiset(cmd.missing)[sid] <= 1;
    RepliedMeans(states[n].fw, cmd.requests, sid);
  }

  /** The reports these requests' futures hold. */
  function Reports(futures: seq<Future>, requests: seq<Request>): seq<Envelope> {
    if requests == [] then []
    else
      var f := requests[|requests| - 1].1;
      Reports(futures, requests[..|requests| - 1])
      + (if f < |futures| && futures[f].status.Resolved? then [futures[f].status.env] else [])
  }

  /** Those of them whose key nobody is waiting for, to be posted in a channel. */
  function Posted(futures: seq<Future>, listeners: map<Key, seq<nat>>, topic: string, requests: seq<Request>, channel: int)
    : seq<(Envelope, int)>
  {
    if requests == [] then []
    else
      var (sid, f) := requests[|requests| - 1];
      Posted(futures, listeners, topic, requests[..|requests| - 1], channel)
      + (if f < |futures| && futures[f].status.Resolved? && (topic, sid) !in listeners
         then [(futures[f].status.env, channel)] else [])
  }

  /** On an open loop a settled reply is posted in the command's channel exactly when no
      listener for that topic and strategy is registered at that moment; otherwise it is
      swallowed as if it were a fresh report.  Either way its dispatch is queued. */
  lemma {:induction false} RepostIff(s: State, topic: string, requests: seq<Request>, channel: int)
    requires Inv(s) && !s.closed && topic in ON_DEMAND_REPORT_TOPICS && RequestsOk(s, topic, requests)
    ensures RepostAll(s, requests, channel).sends == s.sends + Posted(s.futures, s.listeners, topic, requests, channel)
    ensures RepostAll(s, requests, channel).deferred == s.deferred + Reports(s.futures, requests)
  {
    if requests != [] {
      var pre, r := requests[..|requests| - 1], requests[|requests| - 1];
      assert forall i :: 0 <= i < |pre| ==> pre[i] == requests[i];
      RepostIff(s, topic, pre, channel);
      RepostAllKeeps(s, pre, channel);
      if ReplyOf(s, r.1).Some? {
        assert FutureOk(s, r.1);
        assert ListOk(s, (topic, r.0));
      }
    }
  }

  // ─── every step is a run of the forwarder ────────────────────────────────

  lemma {:induction false} RunConcat(s: State, a: seq<Forwarder.Step>, b: seq<Forwarder.Step>)
    ensures Forwarder.Run(s, a + b) == Forwarder.Run(Forwarder.Run(s, a), b)
  {
    if b == [] {
      assert a + b == a;
    } else {
      assert (a + b)[..|a + b| - 1] == a + b[..|b| - 1];
      RunConcat(s, a, b[..|b| - 1]);
    }
  }

  lemma RunOne(s: State, step: Forwarder.Step)
    ensures Forwarder.Run(s, [step]) == Forwarder.Apply(s, step)
  {
    assert [step][..0] == [];
  }

  lemma RunMore(s: State, a: seq<Forwarder.Step>, step: Forwarder.Step)
    ensures Forwarder.Run(s, a + [step]) == Forwarder.Apply(Forwarder.Run(s, a), step)
  {
    RunConcat(s, a, [step]);
    RunOne(Forwarder.Run(s, a), step);
  }

  lemma {:induction false} WatchAllRuns(s: State, topic: string, targets: seq<string>) returns (fsteps: seq<Forwarder.Step>)
    ensures WatchAll(s, topic, targets) == Forwarder.Run(s, fsteps)
  {
    fsteps := [];
    if targets != [] {
      var pre := WatchAllRuns(s, topic, targets[..|targets| - 1]);
      var step := WatchStep((topic, targets[|targets| - 1]));
      RunMore(s, pre, step);
      fsteps := pre + [step];
    }
  }

  lemma {:induction false} CancelAllRuns(s: State, requests: seq<Request>) returns (fsteps: seq<Forwarder.Step>)
    ensures CancelAll(s, requests) == Forwarder.Run(s, fsteps)
  {
    fsteps := [];
    if requests != [] {
      var pre := CancelAllRuns(s, requests[..|requests| - 1]);
      var step := CancelStep(requests[|requests| - 1].1);
      RunMore(s, pre, step);
      fsteps := pre + [step];
    }
  }

  lemma {:induction false} AbandonedRuns(s: State, topic: string, requests: seq<Request>) returns (fsteps: seq<Forwarder.Step>)
    ensures Abandoned(s, topic, requests) == Forwarder.Run(s, fsteps)
  {
    fsteps := [];
    if requests != [] {
      var r := requests[|requests| - 1];
      var pre := AbandonedRuns(s, topic, requests[..|requests| - 1]);
      RunMore(s, pre, CancelStep(r.1));
      RunMore(s, pre + [CancelStep(r.1)], DropStep((topic, r.0), r.1));
      fsteps := (pre + [CancelStep(r.1)]) + [DropStep((topic, r.0), r.1)];
    }
  }

  lemma {:induction false} RepostRuns(s: State, requests: seq<Request>, channel: int) returns (fsteps: seq<Forwarder.Step>)
    ensures RepostAll(s, requests, channel) == Forwarder.Run(s, fsteps)
  {
    fsteps := [];
    if requests != [] {
      fsteps := RepostRuns(s, requests[..|requests| - 1], channel);
      var reply := ReplyOf(s, requests[|requests| - 1].1);
      RepostAllKeeps(s, requests[..|requests| - 1], channel);
      var again := ReplyOf(RepostAll(s, requests[..|requests| - 1], channel), requests[|requests| - 1].1);
      if again.Some? {
        RunMore(s, fsteps, EnqueueStep(again.value, channel));
        fsteps := fsteps + [EnqueueStep(again.value, channel)];
      }
    }
  }

  /** Whatever the commands do, they do to the forwarder by its own steps, so all that is proved
      about its runs holds of theirs. */
  lemma StepRefinesForwarder(s: System, step: Step) returns (fsteps: seq<Forwarder.Step>)
    requires Enabled(s, step)
    ensures Apply(s, step).fw == Forwarder.Run(s.fw, fsteps)
  {
    match step
    case Begin(topic, _, targets) => fsteps := WatchAllRuns(s.fw, topic, targets);
    case Report(env, channel) =>
      fsteps := [EnqueueStep(env, channel)];
      RunOne(s.fw, EnqueueStep(env, channel));
    case Dispatch =>
      fsteps := [DispatchStep];
      RunOne(s.fw, DispatchStep);
    case Complete(c) => fsteps := RepostRuns(s.fw, s.commands[c].requests, s.commands[c].channel);
    case TimeoutFires(c) => fsteps := CancelAllRuns(s.fw, s.commands[c].requests);
    case TimeoutHandled(c) =>
      var cmd := s.commands[c];
      var first := AbandonedRuns(s.fw, cmd.topic, cmd.requests);
      var m := Abandoned(s.fw, cmd.topic, cmd.requests);
      var after := RepostRuns(m, cmd.requests, cmd.channel);
      RunConcat(s.fw, first, after);
      fsteps := first + after;
  }

  lemma {:induction false} RunRefinesForwarder(states: seq<System>, steps: seq<Step>, n: nat) returns (fsteps: seq<Forwarder.Step>)
    requires IsRun(states, steps) && n <= |steps|
    ensures states[n].fw == Forwarder.Run(Forwarder.IDLE, fsteps)
  {
    fsteps := [];
    if n > 0 {
      var before := RunRefinesForwarder(states, steps, n - 1);
      assert Follows(states[n - 1], steps[n - 1], states[n]);
      var more := StepRefinesForwarder(states[n - 1], steps[n - 1]);
      RunConcat(Forwarder.IDLE, before, more);
      fsteps := before + more;
    }
  }

  // ─── what reports and dispatches do ──────────────────────────────────────

  /** A report arriving between commands is sent to its own channel unless somebody waits for its
      key, and is queued for dispatch; no command changes. */
  lemma ReportIsEnqueued(s: System, env: Envelope, channel: int)
    requires SysInv(s) && !s.fw.closed
    ensures var t := Apply(s, Report(env, channel));
            && t.commands == s.commands && t.fw.futures == s.fw.futures && t.fw.listeners == s.fw.listeners
            && t.fw.deferred == s.fw.deferred + (if IsReport(env) then [env] else [])
            && t.fw.sends == s.fw.sends + (if OnDemand(s.fw, env) then [] else [(env, channel)])
  {
    SwallowedIff(s.fw, env, channel);
  }

  /** A dispatch answers every request still waiting for its key, of whatever command. */
  lemma DispatchAnswers(s: System, c: nat, i: nat)
    requires SysInv(s) && !s.fw.closed && s.fw.deferred != [] && c < |s.commands| && i < |s.commands[c].requests|
    requires var (sid, f) := s.commands[c].requests[i];
             KeyOf(s.fw.deferred[0]) == Some((s.commands[c].topic, sid))
             && Forwarder.Waiting(s.fw, f, (s.commands[c].topic, sid))
    ensures ReplyOf(Apply(s, Dispatch).fw, s.commands[c].requests[i].1) == Some(s.fw.deferred[0])
    ensures Apply(s, Dispatch).fw.deferred == s.fw.deferred[1..] && Apply(s, Dispatch).commands == s.commands
  {
    var (sid, f) := s.commands[c].requests[i];
    DispatchEffect(s.fw, f, (s.commands[c].topic, sid));
  }

  // ─── what starting, timing out and finishing do ──────────────────────────

  lemma {:induction false} WatchAllOpen(s: State, topic: string, targets: seq<string>)
    ensures var t := WatchAll(s, topic, targets); t.closed == s.closed && t.sends == s.sends && t.deferred == s.deferred
  {
    if targets != [] {
      WatchAllOpen(s, topic, targets[..|targets| - 1]);
    }
  }

  lemma {:induction false} CancelAllOpen(s: State, requests: seq<Request>)
    ensures var t := CancelAll(s, requests); t.closed == s.closed && t.sends == s.sends && t.deferred == s.deferred
  {
    if requests != [] {
      CancelAllOpen(s, requests[..|requests| - 1]);
    }
  }

  lemma {:induction false} AbandonedOpen(s: State, topic: string, requests: seq<Request>)
    ensures var t := Abandoned(s, topic, requests); t.closed == s.closed && t.sends == s.sends && t.deferred == s.deferred
  {
    if requests != [] {
      AbandonedOpen(s, topic, requests[..|requests| - 1]);
    }
  }

  lemma StepStaysOpen(s: System, step: Step)
    requires Enabled(s, step) && !s.fw.closed
    ensures !Apply(s, step).fw.closed
  {
    match step
    case Begin(topic, _, targets) => WatchAllOpen(s.fw, topic, targets);
    case Complete(c) => RepostAllKeeps(s.fw, s.commands[c].requests, s.commands[c].channel);
    case TimeoutFires(c) => CancelAllOpen(s.fw, s.commands[c].requests);
    case TimeoutHandled(c) =>
      AbandonedOpen(s.fw, s.commands[c].topic, s.commands[c].requests);
      RepostAllKeeps(Abandoned(s.fw, s.commands[c].topic, s.commands[c].requests), s.commands[c].requests, s.commands[c].channel);
    case _ =>
  }

  lemma {:induction false} LoopStaysOpen(states: seq<System>, steps: seq<Step>, n: nat)
    requires IsRun(states, steps) && n <= |steps|
    ensures !states[n].fw.closed
  {
    if n > 0 {
      LoopStaysOpen(states, steps, n - 1);
      assert Follows(states[n - 1], steps[n - 1], states[n]);
      StepStaysOpen(states[n - 1], steps[n - 1]);
    }
  }

  lemma {:induction false} NeverDropped(s: State, topic: string, targets: seq<string>)
    ensures WatchAll(s, topic, targets).dropped == s.dropped
  {
    if targets != [] {
      NeverDropped(s, topic, targets[..|targets| - 1]);
    }
  }

  /** The futures of a command that begins are waiting, each for its target. */
  lemma BegunIsWaiting(s: State, topic: string, targets: seq<string>, i: nat)
    requires Inv(s) && i < |targets|
    ensures Forwarder.Waiting(WatchAll(s, topic, targets), |s.futures| + i, (topic, targets[i]))
  {
    WatchAllKeeps(s, topic, targets);
    NeverDropped(s, topic, targets);
    var t := WatchAll(s, topic, targets);
    assert t.futures[|s.futures| + i] == Future((topic, targets[i]), Pending);
    assert FutureOk(t, |s.futures| + i);
    assert |s.futures| + i !in s.dropped;
  }

  /** A command that begins is recorded as asked for and has one pending future listed per target. */
  lemma BeginAsks(s: System, topic: string, channel: int, targets: seq<string>, i: nat)
    requires Inv(s.fw) && Distinct(targets) && i < |targets|
    ensures var t, requests := Apply(s, Begin(topic, channel, targets)), Requests(targets, |s.fw.futures|);
            t.commands == s.commands + [Command(topic, channel, requests, Waiting, [], [])]
            && |requests| == |targets| && requests[i].0 == targets[i]
            && Forwarder.Waiting(t.fw, requests[i].1, (topic, targets[i]))
  {
    BegunIsWaiting(s.fw, topic, targets, i);
  }

  /** A timeout cancels the command's pending futures, leaves its resolved ones and the table. */
  lemma TimeoutCancels(s: System, c: nat, f: nat)
    requires SysInv(s) && Enabled(s, TimeoutFires(c)) && Owns(s.commands[c].requests, f) && f < |s.fw.futures|
    ensures var t := Apply(s, TimeoutFires(c));
            && t.fw.listeners == s.fw.listeners && t.fw.sends == s.fw.sends && t.fw.deferred == s.fw.deferred
            && t.commands[c] == s.commands[c].(phase := TimedOut)
            && f < |t.fw.futures|
            && t.fw.futures[f].status == if s.fw.futures[f].status.Pending? then Cancelled else s.fw.futures[f].status
  {
    CancelAllKeeps(s.fw, s.commands[c].requests);
    CancelAllOpen(s.fw, s.commands[c].requests);
  }

  lemma {:induction false} SameReports(a: State, b: State, topic: string, requests: seq<Request>, channel: int)
    requires forall i :: 0 <= i < |requests| ==> ReplyOf(a, requests[i].1) == ReplyOf(b, requests[i].1)
    ensures Reports(a.futures, requests) == Reports(b.futures, requests)
    ensures Posted(a.futures, b.listeners, topic, requests, channel) == Posted(b.futures, b.listeners, topic, requests, channel)
  {
    if requests != [] {
      var pre := requests[..|requests| - 1];
      assert forall i :: 0 <= i < |pre| ==> pre[i] == requests[i];
      SameReports(a, b, topic, pre, channel);
      assert ReplyOf(a, requests[|pre|].1) == ReplyOf(b, requests[|pre|].1);
    }
  }

  lemma AbandonedReplies(s: System, c: nat)
    requires SysInv(s) && c < |s.commands|
    ensures var cmd := s.commands[c];
            var m := Abandoned(s.fw, cmd.topic, cmd.requests);
            Inv(m) && RequestsOk(m, cmd.topic, cmd.requests)
            && forall i :: 0 <= i < |cmd.requests| ==> ReplyOf(m, cmd.requests[i].1) == ReplyOf(s.fw, cmd.requests[i].1)
  {
    var cmd := s.commands[c];
    assert CommandOk(s, c);
    AbandonedKeeps(s.fw, cmd.topic, cmd.requests);
    AbandonedIsSettled(s, c, Abandoned(s.fw, cmd.topic, cmd.requests));
    forall i | 0 <= i < |cmd.requests|
      ensures ReplyOf(Abandoned(s.fw, cmd.topic, cmd.requests), cmd.requests[i].1) == ReplyOf(s.fw, cmd.requests[i].1) {
      assert Owns(cmd.requests, cmd.requests[i].1);
      assert LetGo(s.fw, Abandoned(s.fw, cmd.topic, cmd.requests), cmd.requests[i].1);
    }
  }

  /** The step that finishes a command, by completion or after a timeout. */
  predicate Finishes(step: Step) {
    step.Complete? || step.TimeoutHandled?
  }

  /** Finishing posts the reports the command's futures hold, in request order and in its channel,
      but for those whose key somebody is waiting for by then; all of them are queued for dispatch. */
  lemma FinishPosts(s: System, step: Step)
    requires SysInv(s) && Enabled(s, step) && Finishes(step) && !s.fw.closed
    requires s.commands[step.c].topic in ON_DEMAND_REPORT_TOPICS
    ensures var t, cmd := Apply(s, step), s.commands[step.c];
            t.fw.sends == s.fw.sends + Posted(s.fw.futures, t.fw.listeners, cmd.topic, cmd.requests, cmd.channel)
            && t.fw.deferred == s.fw.deferred + Reports(s.fw.futures, cmd.requests)
            && |t.commands| == |s.commands| && t.commands[step.c].phase.Finished?
  {
    var cmd := s.commands[step.c];
    assert CommandOk(s, step.c);
    if step.Complete? {
      RepostIff(s.fw, cmd.topic, cmd.requests, cmd.channel);
      RepostAllKeeps(s.fw, cmd.requests, cmd.channel);
    } else {
      var m := Abandoned(s.fw, cmd.topic, cmd.requests);
      AbandonedReplies(s, step.c);
      AbandonedOpen(s.fw, cmd.topic, cmd.requests);
      RepostIff(m, cmd.topic, cmd.requests, cmd.channel);
      RepostAllKeeps(m, cmd.requests, cmd.channel);
      SameReports(s.fw, m, cmd.topic, cmd.requests, cmd.channel);
    }
  }

  lemma EveryFinishPosts(states: seq<System>, steps: seq<Step>, n: nat)
    requires IsRun(states, steps) && n < |steps| && Finishes(steps[n])
    ensures steps[n].c < |states[n].commands|
    ensures var s, t, cmd := states[n], states[n + 1], states[n].commands[steps[n].c];
            cmd.topic in ON_DEMAND_REPORT_TOPICS ==>
              t.fw.sends == s.fw.sends + Posted(s.fw.futures, t.fw.listeners, cmd.topic, cmd.requests, cmd.channel)
              && t.fw.deferred == s.fw.deferred + Reports(s.fw.futures, cmd.requests)
  {
    EveryRunKeepsSysInv(states, steps, n);
    LoopStaysOpen(states, steps, n);
    assert Follows(states[n], steps[n], states[n + 1]);
    if states[n].commands[steps[n].c].topic in ON_DEMAND_REPORT_TOPICS {
      FinishPosts(states[n], steps[n]);
    }
  }

  // ─── a re-post that is swallowed ─────────────────────────────────────────

  /** The forwarder during the run below: nothing sent, nothing dropped. */
  function Scene(listeners: map<Key, seq<nat>>, futures: seq<Future>, deferred: seq<Envelope>, ran: seq<Envelope>): State {
    State(listeners, futures, deferred, [], false, ran, {})
  }

  function Asked(topic: string, channel: int, sid: string, f: nat): Command {
    Command(topic, channel, [(sid, f)], Waiting, [], [])
  }

  function Answered(topic: string, channel: int, sid: string, f: nat): Command {
    Command(topic, channel, [(sid, f)], Finished, [sid], [])
  }

  lemma BeginOne(futures: seq<Future>, ran: seq<Envelope>, commands: seq<Command>, topic: string, channel: int, sid: string)
    ensures var f := |futures|;
            Follows(System(Scene(map[], futures, [], ran), commands), Begin(topic, channel, [sid]),
                    System(Scene(map[(topic, sid) := [f]], futures + [Future((topic, sid), Pending)], [], ran),
                           commands + [Asked(topic, channel, sid, f)]))
  {
    var fw := Scene(map[], futures, [], ran);
    assert [sid][..0] == [] && [sid][1..] == [];
    assert WatchAll(fw, topic, [sid][..0]) == fw;
    assert WatchAll(fw, topic, [sid]) == Watch(fw, (topic, sid));
    assert Requests([sid], |futures|) == [(sid, |futures|)];
    assert ListenersOf(fw, (topic, sid)) + [|futures|] == [|futures|];
    assert Watch(fw, (topic, sid)).listeners == map[(topic, sid) := [|futures|]];
    assert Watch(fw, (topic, sid)) == Scene(map[(topic, sid) := [|futures|]], futures + [Future((topic, sid), Pending)], [], ran);
    assert Distinct([sid]);
  }

  lemma CompleteOne(s: System, env: Envelope, topic: string, channel: int, sid: string)
    requires s.commands != [] && s.commands[0] == Asked(topic, channel, sid, 0)
    requires s.fw.futures != [] && s.fw.futures[0].status == Resolved(env)
    ensures Follows(s, Complete(0),
                    System(Enqueued(s.fw, env, channel), s.commands[0 := Answered(topic, channel, sid, 0)]))
  {
    var requests := [(sid, 0)];
    assert requests[..0] == [];
    assert ReplyOf(s.fw, 0) == Some(env);
    assert Replied(s.fw, requests[..0]) == [] && Missing(s.fw, requests[..0]) == [];
    assert Replied(s.fw, requests) == [sid] && Missing(s.fw, requests) == [];
    assert RepostAll(s.fw, requests[..0], channel) == s.fw;
    assert RepostAll(s.fw, requests, channel) == Enqueued(s.fw, env, channel);
  }

  lemma ReportHeld(key: Key, futures: seq<Future>, ran: seq<Envelope>, f: nat, env: Envelope, channel: int)
    requires IsReport(env) && KeyOf(env) == Some(key)
    ensures Enqueued(Scene(map[key := [f]], futures, [], ran), env, channel) == Scene(map[key := [f]], futures, [env], ran)
  { }

  /** One listener of the key, the newest future, takes the only queued dispatch. */
  lemma DispatchToOne(key: Key, before: seq<Future>, ran: seq<Envelope>, commands: seq<Command>, env: Envelope)
    requires KeyOf(env) == Some(key)
    ensures Follows(System(Scene(map[key := [|before|]], before + [Future(key, Pending)], [env], ran), commands), Dispatch,
                    System(Scene(map[], before + [Future(key, Resolved(env))], [], ran + [env]), commands))
  {
    var futures := before + [Future(key, Pending)];
    ResolveAllMeaning(futures, [|before|], env);
    assert ResolveAll(futures, [|before|], env) == before + [Future(key, Resolved(env))];
    assert map[key := [|before|]] - {key} == map[];
  }

  /** The six scenes: ask, report, dispatch, ask again, complete the first, dispatch. */
  function Scenes(env: Envelope, sid: string, c0: int, c1: int): seq<System> {
    var key := (env.topic, sid);
    var pending, resolved := Future(key, Pending), Future(key, Resolved(env));
    var first, second := Asked(env.topic, c0, sid, 0), Asked(env.topic, c1, sid, 1);
    var done := Answered(env.topic, c0, sid, 0);
    [System(Forwarder.IDLE, []),
     System(Scene(map[key := [0]], [] + [pending], [], []), [first]),
     System(Scene(map[key := [0]], [] + [pending], [env], []), [first]),
     System(Scene(map[], [] + [resolved], [], [] + [env]), [first]),
     System(Scene(map[key := [1]], [resolved] + [pending], [], [env]), [first] + [second]),
     System(Scene(map[key := [1]], [resolved] + [pending], [env], [env]), [done, second]),
     System(Scene(map[], [resolved] + [resolved], [], [env] + [env]), [done, second])]
  }

  function Script(env: Envelope, sid: string, c0: int, c1: int, logging: int): seq<Step> {
    [Begin(env.topic, c0, [sid]), Report(env, logging), Dispatch, Begin(env.topic, c1, [sid]), Complete(0), Dispatch]
  }

  lemma FirstOperator(env: Envelope, sid: string, c0: int, c1: int, logging: int, i: nat)
    requires IsReport(env) && KeyOf(env) == Some((env.topic, sid)) && i < 3
    ensures var states := Scenes(env, sid, c0, c1);
            Follows(states[i], Script(env, sid, c0, c1, logging)[i], states[i + 1])
  {
    var first, key := Asked(env.topic, c0, sid, 0), (env.topic, sid);
    match i
    case 0 => BeginOne([], [], [], env.topic, c0, sid);
    case 1 => ReportHeld(key, [] + [Future(key, Pending)], [], 0, env, logging);
    case _ => DispatchToOne(key, [], [], [first], env);
  }

  lemma SecondOperator(env: Envelope, sid: string, c0: int, c1: int, logging: int, i: nat)
    requires IsReport(env) && KeyOf(env) == Some((env.topic, sid)) && 3 <= i < 6
    ensures var states := Scenes(env, sid, c0, c1);
            Follows(states[i], Script(env, sid, c0, c1, logging)[i], states[i + 1])
  {
    var topic, key := env.topic, (env.topic, sid);
    var pending, resolved := Future(key, Pending), Future(key, Resolved(env));
    match i
    case 3 =>
      BeginOne([resolved], [env], [Asked(topic, c0, sid, 0)], topic, c1, sid);
      assert |[resolved]| == 1 && [] + [env] == [env] && [] + [resolved] == [resolved];
    case 4 =>
      CompleteOne(Scenes(env, sid, c0, c1)[4], env, topic, c0, sid);
      ReportHeld(key, [resolved] + [pending], [env], 1, env, c0);
    case _ => DispatchToOne(key, [resolved], [env], [Answered(topic, c0, sid, 0), Asked(topic, c1, sid, 1)], env);
  }

  /** Two operators ask the same strategy; the first one's reply arrives before the second asks
      but is re-posted after.  The first command then counts the strategy as replied although
      nothing was posted, and the second is answered with the first one's report. */
  lemma RepostIsSwallowed(env: Envelope, sid: string, c0: int, c1: int, logging: int)
    requires IsReport(env) && KeyOf(env) == Some((env.topic, sid))
    ensures IsRun(Scenes(env, sid, c0, c1), Script(env, sid, c0, c1, logging))
    ensures var last := Scenes(env, sid, c0, c1)[6];
            last.fw.sends == [] && |last.commands| == 2
            && last.commands[0].phase.Finished? && last.commands[0].replied == [sid]
            && last.commands[1].requests == [(sid, 1)] && ReplyOf(last.fw, 1) == Some(env)
  {
    var states, steps := Scenes(env, sid, c0, c1), Script(env, sid, c0, c1, logging);
    forall i | 0 <= i < |steps| ensures Follows(states[i], steps[i], states[i + 1]) {
      if i < 3 {
        FirstOperator(env, sid, c0, c1, logging, i);
      } else {
        SecondOperator(env, sid, c0, c1, logging, i);
      }
    }
  }
}
