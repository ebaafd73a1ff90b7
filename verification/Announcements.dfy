/** The strategy registry built from the announce stream, and protocol-drift warnings. */
module Announcements {
  import opened Wrappers
  import opened Text
  import opened Seqs
  import opened Streams

  /** One stream entry; a missing version field reads as "". Ids are positive and increasing. */
  datatype Announce = Announce(id: nat, strategyId: Option<string>, mode: Option<string>,
                               ntVersion: string, proto: string)
  {
    predicate WellFormed() {
      strategyId.Some? && mode.Some?
    }

    /** It says which mode strategy `sid` runs in. */
    predicate Names(sid: string) {
      strategyId == Some(sid) && mode.Some?
    }
  }

  datatype Entry = Entry(strategyId: string, mode: string, ntVersion: string, proto: string)

  function IdOf(a: Announce): nat {
    a.id
  }

  predicate WellOrdered(log: seq<Announce>) {
    Increasing(IdOf, log) && forall i :: 0 <= i < |log| ==> log[i].id > 0
  }

  function Register(registry: map<string, string>, a: Announce): map<string, string> {
    if a.WellFormed() then registry[a.strategyId.value := a.mode.value] else registry
  }

  function RegisterAll(registry: map<string, string>, log: seq<Announce>): map<string, string> {
    if log == [] then registry else Register(RegisterAll(registry, log[..|log| - 1]), log[|log| - 1])
  }

  /** The well-formed entries, as handed to the notifier loop. */
  function Entries(log: seq<Announce>): seq<Entry> {
    if log == [] then []
    else
      var a := log[|log| - 1];
      Entries(log[..|log| - 1])
      + (if a.WellFormed() then [Entry(a.strategyId.value, a.mode.value, a.ntVersion, a.proto)] else [])
  }

  /** `load_announce_history` */
  method LoadAnnounceHistory(stream: seq<Announce>) returns (registry: map<string, string>, lastId: nat)
    ensures registry == RegisterAll(map[], stream) && lastId == TailId(IdOf, stream)
  {
    registry, lastId := map[], 0;
    for i := 0 to |stream|
      invariant registry == RegisterAll(map[], stream[..i]) && lastId == TailId(IdOf, stream[..i])
    {
      var a := stream[i];
      assert stream[..i + 1][..i] == stream[..i];
      lastId := a.id;
      if a.strategyId.Some? && a.mode.Some? {
        registry := registry[a.strategyId.value := a.mode.value];
      }
    }
    assert stream[..|stream|] == stream;
  }

  /** `read_new_announces`, given the entries XREAD returned. */
  method ReadNewAnnounces(response: seq<Announce>, cursor: nat) returns (entries: seq<Entry>, newCursor: nat)
    ensures entries == Entries(response)
    ensures newCursor == if response == [] then cursor else TailId(IdOf, response)
  {
    entries, newCursor := [], cursor;
    for i := 0 to |response|
      invariant entries == Entries(response[..i])
      invariant newCursor == if i == 0 then cursor else TailId(IdOf, response[..i])
    {
      var a := response[i];
      assert response[..i + 1][..i] == response[..i];
      if a.strategyId.Some? && a.mode.Some? {
        entries := entries + [Entry(a.strategyId.value, a.mode.value, a.ntVersion, a.proto)];
      }
      newCursor := a.id;
    }
    assert response[..|response|] == response;
  }

  // ─── drift ───────────────────────────────────────────────────────────────

  /** What a warning is deduplicated by: strategy, protocol and framework version. */
  datatype Drift = Drift(strategyId: string, proto: string, ntVersion: string)

  datatype Expected = Expected(proto: string, ntVersion: string)

  predicate Drifts(e: Entry, expected: Expected) {
    e.proto != expected.proto || e.ntVersion != expected.ntVersion
  }

  function DriftOf(e: Entry): Drift {
    Drift(e.strategyId, e.proto, e.ntVersion)
  }

  /** `detect_protocol_drift` */
  function DetectProtocolDrift(entries: seq<Entry>, expected: Expected): seq<Drift> {
    if entries == [] then []
    else
      var e := entries[|entries| - 1];
      DetectProtocolDrift(entries[..|entries| - 1], expected) + (if Drifts(e, expected) then [DriftOf(e)] else [])
  }

  ghost predicate DriftRead(entries: seq<Entry>, d: Drift, expected: Expected) {
    exists i :: 0 <= i < |entries| && Drifts(entries[i], expected) && DriftOf(entries[i]) == d
  }

  lemma {:induction false} DetectsAll(entries: seq<Entry>, expected: Expected, d: Drift)
    ensures d in DetectProtocolDrift(entries, expected) <==> DriftRead(entries, d, expected)
  {
    if entries != [] {
      DetectsAll(entries[..|entries| - 1], expected, d);
      var last := entries[|entries| - 1];
      if Drifts(last, expected) && DriftOf(last) == d {
        assert d in DetectProtocolDrift(entries, expected);
      }
    }
  }

  // ─── the autodiscover loop ───────────────────────────────────────────────

  /** What the loop keeps, the warnings it enqueued, and (as history) every entry it processed,
      how many of them came from the startup replay, and the drifts a raising pass gave up on. */
  datatype Loop = Loop(registry: map<string, string>, cursor: nat, warned: set<Drift>, sent: seq<Drift>,
                       consumed: seq<Announce>, replayed: nat, abandoned: set<Drift>)

  function WarnAll(l: Loop, ds: seq<Drift>): Loop {
    if ds == [] then l
    else
      var m := WarnAll(l, ds[..|ds| - 1]);
      var d := ds[|ds| - 1];
      if d in m.warned then m else m.(warned := m.warned + {d}, sent := m.sent + [d])
  }

  function AddUnknown(registry: map<string, string>, sid: string): map<string, string> {
    if sid in registry then registry else registry[sid := "sandbox"]
  }

  /** `apply_fallback_scan` over the control keys found. */
  function ScanAll(registry: map<string, string>, keys: seq<string>): map<string, string> {
    if keys == [] then registry
    else AddUnknown(ScanAll(registry, keys[..|keys| - 1]), AfterLastColon(keys[|keys| - 1]))
  }

  function Started(stream: seq<Announce>): Loop {
    Loop(RegisterAll(map[], stream), TailId(IdOf, stream), {}, [], stream, |stream|, {})
  }

  function SetOf(ds: seq<Drift>): set<Drift> {
    set d | d in ds
  }

  /** Enqueueing the warning for `ds[n]` raises: it counts as warned, the rest is not looked at. */
  function WarnUntil(l: Loop, ds: seq<Drift>, n: nat): Loop {
    if n >= |ds| then WarnAll(l, ds)
    else
      var m := WarnAll(l, ds[..n]);
      m.(warned := m.warned + {ds[n]}, abandoned := m.abandoned + SetOf(ds[n..]))
  }

  /** The registry part of one read. */
  function Registered(l: Loop, response: seq<Announce>): Loop {
    l.(registry := RegisterAll(l.registry, response),
       cursor := if response == [] then l.cursor else TailId(IdOf, response),
       consumed := l.consumed + response)
  }

  /** One read: registry first, then drift on the entries just read, up to a raise at the
      n-th drift if there are so many. */
  function Absorb(l: Loop, response: seq<Announce>, expected: Expected, n: nat): Loop {
    WarnUntil(Registered(l, response), DetectProtocolDrift(Entries(response), expected), n)
  }

  function PutAll(registry: map<string, string>, entries: seq<Entry>): map<string, string> {
    if entries == [] then registry
    else PutAll(registry, entries[..|entries| - 1])[entries[|entries| - 1].strategyId := entries[|entries| - 1].mode]
  }

  lemma {:induction false} PutIsRegister(registry: map<string, string>, log: seq<Announce>)
    ensures PutAll(registry, Entries(log)) == RegisterAll(registry, log)
  {
    if log != [] {
      PutIsRegister(registry, log[..|log| - 1]);
      var es := Entries(log);
      if log[|log| - 1].WellFormed() {
        assert es[..|es| - 1] == Entries(log[..|log| - 1]);
      } else {
        assert es == Entries(log[..|log| - 1]);
      }
    }
  }

  /** Only a warning not sent or tried before is enqueued, and only that can raise. */
  predicate CanRaise(l: Loop, response: seq<Announce>, expected: Expected, n: nat) {
    var ds := DetectProtocolDrift(Entries(response), expected);
    n < |ds| && ds[n] !in WarnAll(Registered(l, response), ds[..n]).warned
  }

  class Autodiscover {
    const expected: Expected
    var registry: map<string, string>
    var cursor: nat
    var warned: set<Drift>
    var sent: seq<Drift>
    ghost var consumed: seq<Announce>
    ghost var replayed: nat
    ghost var abandoned: set<Drift>

    ghost function View(): Loop
      reads this
    {
      Loop(registry, cursor, warned, sent, consumed, replayed, abandoned)
    }

    constructor (stream: seq<Announce>, expected: Expected)
      ensures View() == Started(stream) && this.expected == expected
    {
      this.expected := expected;
      var r, c := LoadAnnounceHistory(stream);
      registry, cursor, warned, sent := r, c, {}, [];
      consumed, replayed, abandoned := stream, |stream|, {};
    }

    /** Register what was read. */
    method Update(ghost response: seq<Announce>, entries: seq<Entry>)
      requires entries == Entries(response)
      modifies this`registry
      ensures registry == RegisterAll(old(registry), response)
    {
      for i := 0 to |entries|
        invariant registry == PutAll(old(registry), entries[..i])
      {
        registry := registry[entries[i].strategyId := entries[i].mode];
        assert entries[..i + 1][..i] == entries[..i];
      }
      assert entries[..|entries|] == entries;
      PutIsRegister(old(registry), response);
    }

    /** Enqueue each drift not warned about before.  `raises[i]` says whether enqueueing the
        i-th raises, which ends the pass; `handled` are those dealt with. */
    method Warn(ds: seq<Drift>, raises: seq<bool>) returns (handled: nat)
      requires |raises| == |ds|
      modifies this`warned, this`sent, this`abandoned
      ensures handled <= |ds| && View() == WarnUntil(old(View()), ds, handled)
      ensures handled < |ds| ==> raises[handled] && ds[handled] !in WarnAll(old(View()), ds[..handled]).warned
    {
      handled := 0;
      while handled < |ds|
        invariant handled <= |ds| && View() == WarnAll(old(View()), ds[..handled])
      {
        assert ds[..handled + 1][..handled] == ds[..handled];
        if ds[handled] !in warned {
          warned := warned + {ds[handled]};
          if raises[handled] {
            abandoned := abandoned + SetOf(ds[handled..]);
            return;
          }
          sent := sent + [ds[handled]];
        }
        handled := handled + 1;
      }
      assert ds[..|ds|] == ds;
    }

    /** One pass over a response, up to the fallback scan; `done` unless enqueueing raised. */
    method Tick(response: seq<Announce>, raises: seq<bool>) returns (done: bool, handled: nat)
      requires |raises| == |DetectProtocolDrift(Entries(response), expected)|
      modifies this
      ensures View() == Absorb(old(View()), response, expected, handled)
      ensures done <==> handled >= |raises|
      ensures !done ==> CanRaise(old(View()), response, expected, handled)
    {
      var entries, newCursor := ReadNewAnnounces(response, cursor);
      cursor := newCursor;
      consumed := consumed + response;
      Update(response, entries);
      handled := 0;
      if entries != [] {
        handled := Warn(DetectProtocolDrift(entries, expected), raises);
      }
      done := handled >= |raises|;
    }

    method ApplyFallbackScan(keys: seq<string>)
      modifies this`registry
      ensures registry == ScanAll(old(registry), keys)
    {
      for i := 0 to |keys|
        invariant registry == ScanAll(old(registry), keys[..i])
      {
        assert keys[..i + 1][..i] == keys[..i];
        var sid := AfterLastColon(keys[i]);
        if sid !in registry {
          registry := registry[sid := "sandbox"];
        }
      }
      assert keys[..|keys|] == keys;
    }
  }

  // ─── runs ────────────────────────────────────────────────────────────────

  /** The environment publishes; the loop reads everything after its cursor, reads and raises
      while enqueueing the n-th drift, scans, or fails before any of this. */
  datatype Step = Publish(a: Announce) | Read | RaisingRead(n: nat) | Scan(keys: seq<string>) | Fail

  datatype State = State(log: seq<Announce>, loop: Loop)

  function Unread(s: State): seq<Announce> {
    After(IdOf, s.log, s.loop.cursor)
  }

  predicate Enabled(s: State, step: Step, expected: Expected) {
    match step
    case Publish(a) => a.id > TailId(IdOf, s.log)
    case RaisingRead(n) => CanRaise(s.loop, Unread(s), expected, n)
    case _ => true
  }

  /** A read that raises at the n-th drift, or nowhere if there are fewer. */
  function AfterRead(s: State, expected: Expected, n: nat): State {
    s.(loop := Absorb(s.loop, Unread(s), expected, n))
  }

  function Apply(s: State, step: Step, expected: Expected): State {
    match step
    case Publish(a) => s.(log := s.log + [a])
    case Read => AfterRead(s, expected, |DetectProtocolDrift(Entries(Unread(s)), expected)|)
    case RaisingRead(n) => AfterRead(s, expected, n)
    case Scan(keys) => s.(loop := s.loop.(registry := ScanAll(s.loop.registry, keys)))
    case Fail => s
  }

  function Run(stream: seq<Announce>, steps: seq<Step>, expected: Expected): State {
    if steps == [] then State(stream, Started(stream))
    else Apply(Run(stream, steps[..|steps| - 1], expected), steps[|steps| - 1], expected)
  }

  ghost predicate Legal(stream: seq<Announce>, steps: seq<Step>, expected: Expected) {
    WellOrdered(stream) && forall i :: 0 <= i < |steps| ==> Enabled(Run(stream, steps[..i], expected), steps[i], expected)
  }

  /** `mode` is that of the last well-formed announce naming `sid`. */
  ghost predicate IsLastMode(log: seq<Announce>, sid: string, mode: string) {
    exists i :: 0 <= i < |log| && log[i].Names(sid) && log[i].mode.value == mode
                && forall j :: i < j < |log| ==> !log[j].Names(sid)
  }

  ghost predicate Announced(log: seq<Announce>, sid: string) {
    exists i :: 0 <= i < |log| && log[i].Names(sid)
  }

  ghost predicate RegistryOk(registry: map<string, string>, consumed: seq<Announce>) {
    && (forall sid :: Announced(consumed, sid) ==> sid in registry && IsLastMode(consumed, sid, registry[sid]))
    && (forall sid :: sid in registry && !Announced(consumed, sid) ==> registry[sid] == "sandbox")
  }

  lemma AnnouncedStep(log: seq<Announce>, a: Announce, sid: string)
    ensures Announced(log + [a], sid) <==> Announced(log, sid) || a.Names(sid)
  {
    var now := log + [a];
    if a.Names(sid) {
      assert now[|log|].Names(sid);
    }
    if i :| 0 <= i < |log| && log[i].Names(sid) {
      assert now[i].Names(sid);
    }
  }

  lemma LastModeStep(registry: map<string, string>, consumed: seq<Announce>, a: Announce, sid: string)
    requires a.Names(sid) || (sid in registry && IsLastMode(consumed, sid, registry[sid]))
    ensures sid in Register(registry, a) && IsLastMode(consumed + [a], sid, Register(registry, a)[sid])
  {
    var now := consumed + [a];
    if a.Names(sid) {
      assert now[|consumed|].Names(sid);
    } else {
      var j :| 0 <= j < |consumed| && consumed[j].Names(sid) && consumed[j].mode.value == registry[sid]
               && forall k :: j < k < |consumed| ==> !consumed[k].Names(sid);
      assert now[j].Names(sid);
    }
  }

  lemma RegisterKeeps(registry: map<string, string>, consumed: seq<Announce>, a: Announce)
    requires RegistryOk(registry, consumed)
    ensures RegistryOk(Register(registry, a), consumed + [a])
  {
    var now, r := consumed + [a], Register(registry, a);
    forall sid ensures Announced(now, sid) <==> Announced(consumed, sid) || a.Names(sid) {
      AnnouncedStep(consumed, a, sid);
    }
    forall sid | Announced(now, sid) ensures sid in r && IsLastMode(now, sid, r[sid]) {
      LastModeStep(registry, consumed, a, sid);
    }
  }

  lemma {:induction false} RegisterAllKeeps(registry: map<string, string>, consumed: seq<Announce>, log: seq<Announce>)
    requires RegistryOk(registry, consumed)
    ensures RegistryOk(RegisterAll(registry, log), consumed + log)
  {
    if log == [] {
      assert consumed + log == consumed;
    } else {
      var pre, a := log[..|log| - 1], log[|log| - 1];
      RegisterAllKeeps(registry, consumed, pre);
      RegisterKeeps(RegisterAll(registry, pre), consumed + pre, a);
      assert consumed + pre + [a] == consumed + log;
    }
  }

  lemma {:induction false} ScanKeeps(registry: map<string, string>, consumed: seq<Announce>, keys: seq<string>)
    requires RegistryOk(registry, consumed)
    ensures RegistryOk(ScanAll(registry, keys), consumed)
  {
    if keys != [] {
      ScanKeeps(registry, consumed, keys[..|keys| - 1]);
    }
  }

  /** The unread entries are exactly those after the processed ones. */
  lemma UnreadAreRest(before: seq<Announce>, rest: seq<Announce>)
    requires WellOrdered(before + rest)
    ensures After(IdOf, before + rest, TailId(IdOf, before)) == rest
  {
    assert forall i :: 0 <= i < |rest| ==> (before + rest)[|before| + i] == rest[i];
    UnreadIsRest(IdOf, before, rest);
  }

  /** Some entry read after startup drifts as `d` says. */
  ghost predicate Seen(log: seq<Announce>, d: Drift, expected: Expected) {
    d in DetectProtocolDrift(Entries(log), expected)
  }

  /** Warnings are sent once, for drifts read since startup, and for all of those but the
      abandoned ones. */
  ghost predicate WarnOk(l: Loop, expected: Expected) {
    && Distinct(l.sent) && l.replayed <= |l.consumed|
    && (forall d :: d in l.sent ==> d in l.warned)
    && (forall d :: d in l.warned ==> d in l.sent || d in l.abandoned)
    && (forall d :: d in l.sent || d in l.abandoned <==> Seen(l.consumed[l.replayed..], d, expected))
  }

  ghost predicate Inv(s: State, expected: Expected) {
    && WellOrdered(s.log)
    && s.loop.consumed <= s.log && s.loop.cursor == TailId(IdOf, s.loop.consumed)
    && RegistryOk(s.loop.registry, s.loop.consumed)
    && WarnOk(s.loop, expected)
  }

  /** Nothing is sent twice, and what is warned about was sent or given up. */
  ghost predicate Once(l: Loop) {
    Distinct(l.sent) && (forall d :: d in l.sent ==> d in l.warned)
    && (forall d :: d in l.warned ==> d in l.sent || d in l.abandoned)
  }

  lemma {:induction false} WarnAllMeaning(l: Loop, ds: seq<Drift>)
    requires Once(l)
    ensures var m := WarnAll(l, ds);
            Once(m) && (forall d :: d in m.sent || d in m.abandoned <==> d in l.sent || d in l.abandoned || d in ds)
            && m == l.(warned := m.warned, sent := m.sent)
  {
    if ds != [] {
      WarnAllMeaning(l, ds[..|ds| - 1]);
      var m := WarnAll(l, ds[..|ds| - 1]);
      if ds[|ds| - 1] !in m.warned {
        AppendDistinct(m.sent, ds[|ds| - 1]);
      }
      assert ds == ds[..|ds| - 1] + [ds[|ds| - 1]];
    }
  }

  lemma WarnUntilMeaning(l: Loop, ds: seq<Drift>, n: nat)
    requires Once(l)
    ensures var m := WarnUntil(l, ds, n);
            Once(m) && (forall d :: d in m.sent || d in m.abandoned <==> d in l.sent || d in l.abandoned || d in ds)
            && m == l.(warned := m.warned, sent := m.sent, abandoned := m.abandoned)
            && (n >= |ds| ==> m.abandoned == l.abandoned)
  {
    if n >= |ds| {
      WarnAllMeaning(l, ds);
    } else {
      WarnAllMeaning(l, ds[..n]);
      assert ds == ds[..n] + ds[n..] && ds[n] in ds[n..];
    }
  }

  lemma {:induction false} EntriesConcat(a: seq<Announce>, b: seq<Announce>)
    ensures Entries(a + b) == Entries(a) + Entries(b)
  {
    if b == [] {
      assert a + b == a;
    } else {
      assert (a + b)[..|a + b| - 1] == a + b[..|b| - 1];
      EntriesConcat(a, b[..|b| - 1]);
    }
  }

  lemma {:induction false} DetectConcat(a: seq<Entry>, b: seq<Entry>, expected: Expected)
    ensures DetectProtocolDrift(a + b, expected) == DetectProtocolDrift(a, expected) + DetectProtocolDrift(b, expected)
  {
    if b == [] {
      assert a + b == a;
    } else {
      assert (a + b)[..|a + b| - 1] == a + b[..|b| - 1];
      DetectConcat(a, b[..|b| - 1], expected);
    }
  }

  lemma SeenConcat(earlier: seq<Announce>, response: seq<Announce>, d: Drift, expected: Expected)
    ensures Seen(earlier + response, d, expected)
       <==> Seen(earlier, d, expected) || d in DetectProtocolDrift(Entries(response), expected)
  {
    EntriesConcat(earlier, response);
    DetectConcat(Entries(earlier), Entries(response), expected);
  }

  lemma AbsorbKeepsWarnings(l: Loop, response: seq<Announce>, expected: Expected, n: nat)
    requires WarnOk(l, expected)
    ensures WarnOk(Absorb(l, response, expected, n), expected)
    ensures var m := Absorb(l, response, expected, n);
            m.registry == RegisterAll(l.registry, response) && m.consumed == l.consumed + response
            && m.cursor == (if response == [] then l.cursor else TailId(IdOf, response)) && m.replayed == l.replayed
  {
    var ds := DetectProtocolDrift(Entries(response), expected);
    var r, m := Registered(l, response), Absorb(l, response, expected, n);
    WarnUntilMeaning(r, ds, n);
    var earlier := l.consumed[l.replayed..];
    assert m.consumed[l.replayed..] == earlier + response;
    forall d ensures d in m.sent || d in m.abandoned <==> Seen(m.consumed[m.replayed..], d, expected) {
      SeenConcat(earlier, response, d, expected);
    }
  }

  lemma ReadKeepsInv(s: State, expected: Expected, n: nat)
    requires Inv(s, expected)
    ensures Inv(AfterRead(s, expected, n), expected)
    ensures AfterRead(s, expected, n).loop.consumed == s.log
  {
    var response := s.log[|s.loop.consumed|..];
    assert s.loop.consumed + response == s.log;
    UnreadAreRest(s.loop.consumed, response);
    AbsorbKeepsWarnings(s.loop, response, expected, n);
    RegisterAllKeeps(s.loop.registry, s.loop.consumed, response);
  }

  lemma StartInv(stream: seq<Announce>, expected: Expected)
    requires WellOrdered(stream)
    ensures Inv(State(stream, Started(stream)), expected)
  {
    RegisterAllKeeps(map[], [], stream);
    assert [] + stream == stream;
    assert stream[|stream|..] == [];
  }

  lemma PublishKeepsInv(s: State, a: Announce, expected: Expected)
    requires Inv(s, expected) && a.id > TailId(IdOf, s.log)
    ensures Inv(Apply(s, Publish(a), expected), expected)
  {
    assert s.loop.consumed <= s.log + [a];
  }

  lemma StepKeepsInv(s: State, step: Step, expected: Expected)
    requires Inv(s, expected) && Enabled(s, step, expected)
    ensures Inv(Apply(s, step, expected), expected)
  {
    match step
    case Publish(a) => PublishKeepsInv(s, a, expected);
    case Read => ReadKeepsInv(s, expected, |DetectProtocolDrift(Entries(Unread(s)), expected)|);
    case RaisingRead(n) => ReadKeepsInv(s, expected, n);
    case Scan(keys) => ScanKeeps(s.loop.registry, s.loop.consumed, keys);
    case Fail =>
  }

  lemma LegalStep(stream: seq<Announce>, steps: seq<Step>, expected: Expected)
    requires Legal(stream, steps, expected) && steps != []
    ensures Legal(stream, steps[..|steps| - 1], expected)
    ensures Enabled(Run(stream, steps[..|steps| - 1], expected), steps[|steps| - 1], expected)
  {
    var pre := steps[..|steps| - 1];
    assert forall i :: 0 <= i <= |pre| ==> pre[..i] == steps[..i];
  }

  lemma {:induction false} EveryRunKeepsInv(stream: seq<Announce>, steps: seq<Step>, expected: Expected)
    requires Legal(stream, steps, expected)
    ensures Inv(Run(stream, steps, expected), expected)
  {
    if steps == [] {
      StartInv(stream, expected);
    } else {
      var pre := steps[..|steps| - 1];
      LegalStep(stream, steps, expected);
      EveryRunKeepsInv(stream, pre, expected);
      StepKeepsInv(Run(stream, pre, expected), steps[|steps| - 1], expected);
    }
  }

  // ─── main results ────────────────────────────────────────────────────────

  /** The processed entries are a prefix of the stream, and a read would return the rest. */
  predicate NothingSkipped(s: State) {
    s.loop.consumed <= s.log && s.loop.cursor == TailId(IdOf, s.loop.consumed)
    && After(IdOf, s.log, s.loop.cursor) == s.log[|s.loop.consumed|..]
  }

  lemma ReadsAreExact(s: State, expected: Expected, n: nat)
    requires Inv(s, expected)
    ensures NothingSkipped(s) && AfterRead(s, expected, n).loop.consumed == s.log
  {
    assert s.loop.consumed + s.log[|s.loop.consumed|..] == s.log;
    UnreadAreRest(s.loop.consumed, s.log[|s.loop.consumed|..]);
    ReadKeepsInv(s, expected, n);
  }

  /** The processed entries are always a prefix of the stream, malformed ones included: the
      hand-off from replay to reads, and every later read, neither skips nor repeats one.
      A read processes everything written so far, even if warning about it raises. */
  lemma NoGapNoRepeat(stream: seq<Announce>, steps: seq<Step>, expected: Expected, n: nat)
    requires Legal(stream, steps, expected)
    ensures var s := Run(stream, steps, expected);
            NothingSkipped(s) && AfterRead(s, expected, n).loop.consumed == s.log
  {
    EveryRunKeepsInv(stream, steps, expected);
    ReadsAreExact(Run(stream, steps, expected), expected, n);
  }

  /** At any time an announced strategy has the mode of its last well-formed announce among
      the processed entries, and every other registered id is sandbox. */
  lemma RegistryIsLastAnnounced(stream: seq<Announce>, steps: seq<Step>, expected: Expected)
    requires Legal(stream, steps, expected)
    ensures RegistryOk(Run(stream, steps, expected).loop.registry, Run(stream, steps, expected).loop.consumed)
  {
    EveryRunKeepsInv(stream, steps, expected);
  }

  /** Some announce with both fields names this strategy with this protocol and framework version,
      and one of the two is not the expected one. */
  ghost predicate Drifted(log: seq<Announce>, d: Drift, expected: Expected) {
    (d.proto != expected.proto || d.ntVersion != expected.ntVersion)
    && exists i :: 0 <= i < |log| && log[i].Names(d.strategyId) && log[i].proto == d.proto && log[i].ntVersion == d.ntVersion
  }

  lemma {:induction false} EntriesMembers(log: seq<Announce>, e: Entry)
    ensures e in Entries(log)
       <==> exists i :: 0 <= i < |log| && log[i].Names(e.strategyId) && log[i].mode == Some(e.mode)
                        && log[i].ntVersion == e.ntVersion && log[i].proto == e.proto
  {
    if log != [] {
      var pre, last := log[..|log| - 1], log[|log| - 1];
      EntriesMembers(pre, e);
      assert log == pre + [last];
    }
  }

  lemma SeenIsDrifted(log: seq<Announce>, d: Drift, expected: Expected)
    ensures Seen(log, d, expected) <==> Drifted(log, d, expected)
  {
    var entries := Entries(log);
    DetectsAll(entries, expected, d);
    if Seen(log, d, expected) {
      var i :| 0 <= i < |entries| && Drifts(entries[i], expected) && DriftOf(entries[i]) == d;
      EntriesMembers(log, entries[i]);
    }
    if Drifted(log, d, expected) {
      var i :| 0 <= i < |log| && log[i].Names(d.strategyId) && log[i].proto == d.proto && log[i].ntVersion == d.ntVersion;
      var e := Entry(d.strategyId, log[i].mode.value, d.ntVersion, d.proto);
      EntriesMembers(log, e);
      var j :| 0 <= j < |entries| && entries[j] == e;
      assert Drifts(entries[j], expected) && DriftOf(entries[j]) == d;
    }
  }

  lemma {:induction false} WarnKeepsReplayed(l: Loop, ds: seq<Drift>)
    ensures WarnAll(l, ds).replayed == l.replayed
  {
    if ds != [] {
      WarnKeepsReplayed(l, ds[..|ds| - 1]);
    }
  }

  lemma StepKeepsReplayed(s: State, step: Step, expected: Expected)
    ensures Apply(s, step, expected).loop.replayed == s.loop.replayed
  {
    if step.Read? || step.RaisingRead? {
      var ds := DetectProtocolDrift(Entries(Unread(s)), expected);
      WarnKeepsReplayed(Registered(s.loop, Unread(s)), ds);
      if step.RaisingRead? && step.n < |ds| {
        WarnKeepsReplayed(Registered(s.loop, Unread(s)), ds[..step.n]);
      }
    }
  }

  lemma {:induction false} ReplayedIsStream(stream: seq<Announce>, steps: seq<Step>, expected: Expected)
    ensures Run(stream, steps, expected).loop.replayed == |stream|
  {
    if steps != [] {
      var pre, step := steps[..|steps| - 1], steps[|steps| - 1];
      ReplayedIsStream(stream, pre, expected);
      StepKeepsReplayed(Run(stream, pre, expected), step, expected);
    }
  }

  /** Over every run each drift (strategy, protocol, version) is enqueued at most once, only if
      it was read since startup, and certainly if it was and no raising pass gave up on it. */
  lemma DriftWarnedOnce(stream: seq<Announce>, steps: seq<Step>, expected: Expected)
    requires Legal(stream, steps, expected)
    ensures var l := Run(stream, steps, expected).loop;
            Distinct(l.sent) && |stream| <= |l.consumed|
            && forall d :: d in l.sent || d in l.abandoned <==> Drifted(l.consumed[|stream|..], d, expected)
  {
    EveryRunKeepsInv(stream, steps, expected);
    ReplayedIsStream(stream, steps, expected);
    var l := Run(stream, steps, expected).loop;
    forall d ensures d in l.sent || d in l.abandoned <==> Drifted(l.consumed[|stream|..], d, expected) {
      SeenIsDrifted(l.consumed[|stream|..], d, expected);
    }
  }

  lemma {:induction false} WarnAllSends(l: Loop, ds: seq<Drift>, d: Drift)
    ensures var m := WarnAll(l, ds);
            (d in m.sent <==> d in l.sent || (d in ds && d !in l.warned))
            && (d in m.warned <==> d in l.warned || d in ds)
  {
    if ds != [] {
      WarnAllSends(l, ds[..|ds| - 1], d);
      assert ds == ds[..|ds| - 1] + [ds[|ds| - 1]];
    }
  }

  /** What is warned about and was not sent. */
  predicate Stuck(l: Loop, d: Drift) {
    d in l.warned && d !in l.sent
  }

  /** Which drifts a complete read enqueues: those it meets that are not yet marked as warned.  So
      a drift behind a raising one is made up for when it is announced again. */
  lemma ReadSendsIff(s: State, expected: Expected, d: Drift)
    ensures d in Apply(s, Read, expected).loop.sent
       <==> d in s.loop.sent || (d in DetectProtocolDrift(Entries(Unread(s)), expected) && d !in s.loop.warned)
  {
    WarnAllSends(Registered(s.loop, Unread(s)), DetectProtocolDrift(Entries(Unread(s)), expected), d);
  }

  /** The raising drift itself is marked without being sent ... */
  lemma RaiseSticks(s: State, expected: Expected, n: nat, d: Drift)
    requires Enabled(s, RaisingRead(n), expected) && Inv(s, expected)
    ensures var t, ds := Apply(s, RaisingRead(n), expected), DetectProtocolDrift(Entries(Unread(s)), expected);
            && (Stuck(t.loop, d) <==> Stuck(s.loop, d) || d == ds[n])
            && (d in t.loop.sent <==> d in s.loop.sent || (d in ds[..n] && d !in s.loop.warned))
            && (d in t.loop.abandoned <==> d in s.loop.abandoned || d in ds[n..])
  {
    var ds := DetectProtocolDrift(Entries(Unread(s)), expected);
    WarnAllSends(Registered(s.loop, Unread(s)), ds[..n], d);
    WarnAllMeaning(Registered(s.loop, Unread(s)), ds[..n]);
  }

  lemma StepKeepsStuck(s: State, step: Step, expected: Expected, d: Drift)
    requires Stuck(s.loop, d)
    ensures Stuck(Apply(s, step, expected).loop, d)
  {
    var ds := DetectProtocolDrift(Entries(Unread(s)), expected);
    match step
    case Read => WarnAllSends(Registered(s.loop, Unread(s)), ds, d);
    case RaisingRead(n) => WarnAllSends(Registered(s.loop, Unread(s)), if n >= |ds| then ds else ds[..n], d);
    case _ =>
  }

  /** ... and is therefore never sent, however often it is announced again. */
  lemma {:induction false} StuckForGood(stream: seq<Announce>, steps: seq<Step>, expected: Expected, n: nat, d: Drift)
    requires n <= |steps| && Stuck(Run(stream, steps[..n], expected).loop, d)
    ensures Stuck(Run(stream, steps, expected).loop, d)
  {
    if n == |steps| {
      assert steps[..n] == steps;
    } else {
      var pre := steps[..|steps| - 1];
      assert pre[..n] == steps[..n];
      StuckForGood(stream, pre, expected, n, d);
      StepKeepsStuck(Run(stream, pre, expected), steps[|pre|], expected, d);
    }
  }

  lemma StepAbandonsNothing(s: State, step: Step, expected: Expected)
    requires Inv(s, expected) && !step.RaisingRead?
    ensures Apply(s, step, expected).loop.abandoned == s.loop.abandoned
  {
    if step.Read? {
      var ds := DetectProtocolDrift(Entries(Unread(s)), expected);
      WarnUntilMeaning(Registered(s.loop, Unread(s)), ds, |ds|);
    }
  }

  lemma {:induction false} NothingAbandoned(stream: seq<Announce>, steps: seq<Step>, expected: Expected)
    requires Legal(stream, steps, expected) && forall i :: 0 <= i < |steps| ==> !steps[i].RaisingRead?
    ensures Run(stream, steps, expected).loop.abandoned == {}
  {
    if steps != [] {
      var pre := steps[..|steps| - 1];
      LegalStep(stream, steps, expected);
      assert forall i :: 0 <= i < |pre| ==> pre[i] == steps[i];
      NothingAbandoned(stream, pre, expected);
      EveryRunKeepsInv(stream, pre, expected);
      StepAbandonsNothing(Run(stream, pre, expected), steps[|pre|], expected);
    }
  }

  /** Without a raise, each drift read since startup is enqueued exactly once. */
  lemma DriftWarnedExactly(stream: seq<Announce>, steps: seq<Step>, expected: Expected)
    requires Legal(stream, steps, expected) && forall i :: 0 <= i < |steps| ==> !steps[i].RaisingRead?
    ensures var l := Run(stream, steps, expected).loop;
            Distinct(l.sent) && |stream| <= |l.consumed|
            && forall d :: d in l.sent <==> Drifted(l.consumed[|stream|..], d, expected)
  {
    DriftWarnedOnce(stream, steps, expected);
    NothingAbandoned(stream, steps, expected);
  }

  const CONTROL_PREFIX := "tinohelm:control"

  function ControlStreamKey(sid: string): string {
    CONTROL_PREFIX + ":" + sid
  }

  /** A fallback scan recovers a strategy's id from its control key exactly when the id is
      colon-free, and never changes a mode that is already known. */
  lemma ScanRecoversId(registry: map<string, string>, sid: string)
    ensures ControlStreamKey(sid) == "tinohelm:control:" + sid
    ensures AfterLastColon(ControlStreamKey(sid)) == sid <==> ':' !in sid
    ensures ':' !in sid ==> ScanAll(registry, [ControlStreamKey(sid)]) == AddUnknown(registry, sid)
  {
    AfterLastColonOfJoin(CONTROL_PREFIX, sid);
    assert [ControlStreamKey(sid)][..0] == [];
  }

  /** The ids named by a set of control keys. */
  function Scanned(keys: seq<string>): set<string> {
    if keys == [] then {} else Scanned(keys[..|keys| - 1]) + {AfterLastColon(keys[|keys| - 1])}
  }

  lemma {:induction false} ScanOnlyAdds(registry: map<string, string>, keys: seq<string>, sid: string)
    ensures sid in registry ==> sid in ScanAll(registry, keys) && ScanAll(registry, keys)[sid] == registry[sid]
    ensures sid in ScanAll(registry, keys) <==> sid in registry || sid in Scanned(keys)
  {
    if keys != [] {
      ScanOnlyAdds(registry, keys[..|keys| - 1], sid);
    }
  }

  lemma {:induction false} ScannedMeans(keys: seq<string>, sid: string)
    ensures sid in Scanned(keys) <==> exists i :: 0 <= i < |keys| && AfterLastColon(keys[i]) == sid
  {
    if keys != [] {
      var pre, last := keys[..|keys| - 1], keys[|keys| - 1];
      assert keys == pre + [last];
      ScannedMeans(pre, sid);
    }
  }

  lemma {:induction false} AddedAreSandbox(registry: map<string, string>, keys: seq<string>, sid: string)
    ensures sid !in registry && sid in ScanAll(registry, keys) ==> ScanAll(registry, keys)[sid] == "sandbox"
  {
    if keys != [] {
      AddedAreSandbox(registry, keys[..|keys| - 1], sid);
    }
  }

  /** A fallback scan in a run: what was registered keeps its mode, each id named by a key and not
      registered becomes sandbox, nothing else is registered, and cursor and warnings are untouched. */
  lemma ScanRegisters(s: State, keys: seq<string>, expected: Expected, sid: string)
    ensures var t, r := Apply(s, Scan(keys), expected), s.loop.registry;
            && t == s.(loop := s.loop.(registry := t.loop.registry))
            && (sid in r ==> sid in t.loop.registry && t.loop.registry[sid] == r[sid])
            && (sid !in r && sid in t.loop.registry ==> t.loop.registry[sid] == "sandbox")
            && (sid in t.loop.registry <==> sid in r || exists i :: 0 <= i < |keys| && AfterLastColon(keys[i]) == sid)
  {
    ScanOnlyAdds(s.loop.registry, keys, sid);
    ScannedMeans(keys, sid);
    AddedAreSandbox(s.loop.registry, keys, sid);
  }
}
