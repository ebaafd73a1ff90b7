/** The standalone event-stream consumer as a step system.

    Streams are append-only sequences of entry ids; ids are positive and strictly increasing
    within a stream, and 0 stands for the cursor of a stream that was empty when first seen.
    The environment appends entries, creates streams and trims consumed entries between any
    two steps of the loop. */
module StreamLoop {
  import opened Text
  import opened Streams

  // ─── discovery ───────────────────────────────────────────────────────────

  const STREAM_PREFIX := "trader-"
  const STREAM_SUFFIX := ":stream"

  function EventStreamKey(traderId: string): string {
    STREAM_PREFIX + traderId + STREAM_SUFFIX
  }

  predicate Discoverable(key: string) {
    Glob(STREAM_PREFIX + "*" + STREAM_SUFFIX, key)
  }

  /** The glob finds exactly the aggregate streams of some trader id. */
  lemma DiscoverableIff(key: string)
    ensures Discoverable(key) <==> exists id :: key == EventStreamKey(id)
    ensures forall id :: EventStreamKey(id) == "trader-" + id + ":stream"
  {
    GlobOneStar(STREAM_PREFIX, STREAM_SUFFIX, key);
    if Discoverable(key) {
      var id := key[|STREAM_PREFIX|..|key| - |STREAM_SUFFIX|];
      assert key == EventStreamKey(id);
    }
    if id :| key == EventStreamKey(id) {
      assert key[|key| - |STREAM_SUFFIX|..] == STREAM_SUFFIX;
    }
  }

  /** `discover_event_streams` over the whole key space: exactly the matching keys that are not
      to be skipped, as often as Redis lists them, in order. */
  method DiscoverEventStreams(keys: seq<string>, skip: set<string>) returns (out: seq<string>)
    ensures forall k :: multiset(out)[k] == if Discoverable(k) && k !in skip then multiset(keys)[k] else 0
    ensures Ascending(out)
  {
    out := [];
    for i := 0 to |keys|
      invariant forall k :: multiset(out)[k] == if Discoverable(k) && k !in skip then multiset(keys[..i])[k] else 0
    {
      assert keys[..i + 1] == keys[..i] + [keys[i]];
      if Discoverable(keys[i]) && keys[i] !in skip {
        out := out + [keys[i]];
      }
    }
    assert keys[..|keys|] == keys;
    out := Sorted(out);
  }

  // ─── entry ids ───────────────────────────────────────────────────────────

  /** Here an entry is its id. */
  function Itself(id: nat): nat {
    id
  }

  /** The entries with an id in (lo, hi]. */
  function Between(s: seq<nat>, lo: nat, hi: nat): seq<nat> {
    if s == [] then [] else (if lo < s[0] <= hi then [s[0]] else []) + Between(s[1..], lo, hi)
  }

  lemma TailIncreases(s: seq<nat>)
    requires Increasing<nat>(Itself, s) && s != []
    ensures Increasing<nat>(Itself, s[1..])
  { }

  lemma AllLater(s: seq<nat>, cursor: nat)
    requires Increasing<nat>(Itself, s) && s != [] && s[0] > cursor
    ensures AllAfter<nat>(Itself, s, cursor)
  { }

  lemma ReadHead(s: seq<nat>, cursor: nat)
    requires s != [] && s[0] <= cursor
    ensures After<nat>(Itself, s, cursor) == After<nat>(Itself, s[1..], cursor)
  {
    assert [] + After<nat>(Itself, s[1..], cursor) == After<nat>(Itself, s[1..], cursor);
  }

  /** Moving the cursor to the first unread entry leaves exactly the others unread. */
  lemma {:induction false} AfterAdvance(s: seq<nat>, cursor: nat)
    requires Increasing<nat>(Itself, s) && After<nat>(Itself, s, cursor) != []
    ensures After<nat>(Itself, s, cursor)[0] > cursor && After<nat>(Itself, s, cursor)[0] in s
    ensures After<nat>(Itself, s, After<nat>(Itself, s, cursor)[0]) == After<nat>(Itself, s, cursor)[1..]
  {
    TailIncreases(s);
    if s[0] > cursor {
      AllLater(s, cursor);
      AfterAll<nat>(Itself, s, cursor);
      AfterAll<nat>(Itself, s[1..], s[0]);
      ReadHead(s, s[0]);
    } else {
      ReadHead(s, cursor);
      AfterAdvance(s[1..], cursor);
      var x := After<nat>(Itself, s[1..], cursor)[0];
      ReadHead(s, x);
      assert s == [s[0]] + s[1..];
    }
  }

  lemma {:induction false} BetweenNone(s: seq<nat>, lo: nat, hi: nat)
    requires AllAfter<nat>(Itself, s, hi)
    ensures Between(s, lo, hi) == []
  {
    if s != [] {
      BetweenNone(s[1..], lo, hi);
    }
  }

  lemma SplitHead(s: seq<nat>, lo: nat, hi: nat)
    requires s != [] && s[0] <= hi
    requires After<nat>(Itself, s[1..], lo) == Between(s[1..], lo, hi) + After<nat>(Itself, s[1..], hi)
    ensures After<nat>(Itself, s, lo) == Between(s, lo, hi) + After<nat>(Itself, s[1..], hi)
  {
    var mid, rest := Between(s[1..], lo, hi), After<nat>(Itself, s[1..], hi);
    if s[0] > lo {
      assert [s[0]] + (mid + rest) == ([s[0]] + mid) + rest;
    } else {
      ReadHead(s, lo);
      assert [] + mid == mid;
    }
  }

  lemma {:induction false} AfterSplit(s: seq<nat>, lo: nat, hi: nat)
    requires Increasing<nat>(Itself, s) && lo <= hi
    ensures After<nat>(Itself, s, lo) == Between(s, lo, hi) + After<nat>(Itself, s, hi)
  {
    if s != [] {
      TailIncreases(s);
      if s[0] > hi {
        AllLater(s, hi);
        AfterAll<nat>(Itself, s, hi);
        AfterAll<nat>(Itself, s, lo);
        BetweenNone(s, lo, hi);
      } else {
        AfterSplit(s[1..], lo, hi);
        ReadHead(s, hi);
        SplitHead(s, lo, hi);
      }
    }
  }

  lemma {:induction false} BetweenIncreasing(s: seq<nat>, lo: nat, hi: nat)
    requires Increasing<nat>(Itself, s)
    ensures Increasing<nat>(Itself, Between(s, lo, hi))
    ensures forall x :: x in Between(s, lo, hi) <==> x in s && lo < x <= hi
  {
    if s != [] {
      BetweenIncreasing(s[1..], lo, hi);
      var rest := Between(s[1..], lo, hi);
      forall i | 0 <= i < |rest| ensures s[0] < rest[i] {
        assert rest[i] in s[1..];
      }
    }
  }

  // ─── the step system ─────────────────────────────────────────────────────

  type Entry = (string, nat)

  /** What the loop keeps, plus its history: the cursor each stream started from and the
      entries handed to the forwarder, per stream. */
  datatype Loop = Loop(cursors: map<string, nat>, start: map<string, nat>, attempted: map<string, seq<nat>>)

  /** Where the loop is between two awaits. */
  datatype Phase =
    | Top
    | Watching(todo: seq<string>)
    | Ready
    | Handling(batch: seq<Entry>)

  /** `log` holds every entry ever written; `trimmed` counts those since removed. */
  datatype State = State(log: map<string, seq<nat>>, trimmed: map<string, nat>, loop: Loop, phase: Phase)

  datatype Step =
    | Create(key: string)
    | Append(key: string, id: nat)
    | Trim(key: string, n: nat)
    | Discover(found: seq<string>)
    | SkipDiscovery
    | Watch
    | Read(response: seq<Entry>)
    | Handle(raised: bool)
    | Fail

  function Trimmed(s: State, key: string): nat {
    if key in s.trimmed then s.trimmed[key] else 0
  }

  /** The entries of a stream that are still there. */
  function Retained(s: State, key: string): seq<nat>
    requires key in s.log
  {
    if Trimmed(s, key) <= |s.log[key]| then s.log[key][Trimmed(s, key)..] else []
  }

  /** The entries of one stream within a response. */
  function Project(batch: seq<Entry>, key: string): seq<nat> {
    if batch == [] then [] else (if batch[0].0 == key then [batch[0].1] else []) + Project(batch[1..], key)
  }

  /** Start watching a stream after its current tail, unless it is watched already. */
  function WatchOne(l: Loop, key: string, tail: nat): Loop {
    if key in l.cursors then l
    else Loop(l.cursors[key := tail], l.start[key := tail], l.attempted[key := []])
  }

  /** The cursor moves first, then the entry is handed over. */
  function AttemptOne(l: Loop, e: Entry): Loop {
    Loop(l.cursors[e.0 := e.1], l.start,
         l.attempted[e.0 := (if e.0 in l.attempted then l.attempted[e.0] else []) + [e.1]])
  }

  function AttemptAll(l: Loop, batch: seq<Entry>): Loop {
    if batch == [] then l else AttemptOne(AttemptAll(l, batch[..|batch| - 1]), batch[|batch| - 1])
  }

  ghost predicate Answers(s: State, response: seq<Entry>) {
    forall k :: Project(response, k)
             == if k in s.loop.cursors && k in s.log then After<nat>(Itself, Retained(s, k), s.loop.cursors[k]) else []
  }

  ghost predicate Enabled(s: State, step: Step, skip: set<string>) {
    match step
    case Create(k) => k !in s.log
    case Append(k, id) => k in s.log && id > 0 && (forall i :: 0 <= i < |s.log[k]| ==> s.log[k][i] < id)
    // only consumed entries of a watched stream are trimmed
    case Trim(k, n) =>
      k in s.log && k in s.loop.cursors && Trimmed(s, k) <= n <= |s.log[k]|
      && forall i :: 0 <= i < n ==> s.log[k][i] <= s.loop.cursors[k]
    case Discover(found) =>
      s.phase.Top? && forall k :: k in found <==> k in s.log && Discoverable(k) && k !in skip
    case SkipDiscovery => s.phase.Top?
    case Watch => s.phase.Watching?
    case Read(response) => s.phase.Ready? && Answers(s, response)
    case Handle(_) => s.phase.Handling?
    case Fail => !s.phase.Handling?
  }

  function Apply(s: State, step: Step): State {
    match step
    case Create(k) => s.(log := s.log[k := []])
    case Append(k, id) => if k in s.log then s.(log := s.log[k := s.log[k] + [id]]) else s
    case Trim(k, n) => s.(trimmed := s.trimmed[k := n])
    case Discover(found) => s.(phase := Watching(found))
    case SkipDiscovery => s.(phase := Ready)
    case Watch =>
      if !s.phase.Watching? then s
      else if s.phase.todo == [] then s.(phase := Ready)
      else
        var k := s.phase.todo[0];
        var tail := if k in s.log then TailId<nat>(Itself, Retained(s, k)) else 0;
        s.(loop := WatchOne(s.loop, k, tail), phase := Watching(s.phase.todo[1..]))
    case Read(response) => s.(phase := Handling(response))
    case Handle(raised) =>
      if !s.phase.Handling? then s
      else if s.phase.batch == [] then s.(phase := Top)
      else s.(loop := AttemptOne(s.loop, s.phase.batch[0]),
              phase := if raised then Top else Handling(s.phase.batch[1..]))
    case Fail => s.(phase := Top)
  }

  const IDLE := Loop(map[], map[], map[])

  /** The state after `steps`, from a key space `log` written before the notifier started. */
  function Run(log: map<string, seq<nat>>, steps: seq<Step>): State {
    if steps == [] then State(log, map[], IDLE, Top)
    else Apply(Run(log, steps[..|steps| - 1]), steps[|steps| - 1])
  }

  ghost predicate EnabledAt(log: map<string, seq<nat>>, steps: seq<Step>, skip: set<string>, i: nat)
    requires i < |steps|
  {
    Enabled(Run(log, steps[..i]), steps[i], skip)
  }

  ghost predicate Legal(log: map<string, seq<nat>>, steps: seq<Step>, skip: set<string>) {
    && (forall k :: k in log ==> Increasing<nat>(Itself, log[k]) && 0 !in log[k])
    && (forall i :: 0 <= i < |steps| ==> EnabledAt(log, steps, skip, i))
  }

  // ─── the invariant ───────────────────────────────────────────────────────

  predicate NoGap(entries: seq<nat>, start: nat, cursor: nat, attempted: seq<nat>) {
    && start <= cursor && (cursor == 0 || cursor in entries)
    && attempted + After<nat>(Itself, entries, cursor) == After<nat>(Itself, entries, start)
  }

  /** No gap and no repetition on one stream: what was attempted, followed by what is still
      unread, is everything written after the starting point. */
  ghost predicate Accounted(log: map<string, seq<nat>>, l: Loop, k: string) {
    && k in log && k in l.cursors && k in l.start && k in l.attempted
    && NoGap(log[k], l.start[k], l.cursors[k], l.attempted[k])
  }

  ghost predicate LogsOk(s: State) {
    forall k :: k in s.log ==> Increasing<nat>(Itself, s.log[k]) && 0 !in s.log[k]
  }

  /** Only entries at or before the cursor are gone. */
  ghost predicate TrimmedOk(s: State, k: string) {
    && k in s.log && k in s.loop.cursors && Trimmed(s, k) <= |s.log[k]|
    && forall i :: 0 <= i < Trimmed(s, k) ==> s.log[k][i] <= s.loop.cursors[k]
  }

  ghost predicate TrimOk(s: State) {
    forall k :: k in s.trimmed ==> TrimmedOk(s, k)
  }

  ghost predicate SameKeys(l: Loop) {
    l.start.Keys == l.cursors.Keys == l.attempted.Keys
  }

  ghost predicate WatchOk(s: State, skip: set<string>) {
    && SameKeys(s.loop)
    && (forall k :: k in s.loop.cursors ==> Accounted(s.log, s.loop, k) && k !in skip)
  }

  /** What is left of a batch is the beginning of what is unread. */
  ghost predicate PendingOk(s: State, batch: seq<Entry>, k: string) {
    if k in s.loop.cursors && k in s.log then Project(batch, k) <= After<nat>(Itself, s.log[k], s.loop.cursors[k])
    else Project(batch, k) == []
  }

  ghost predicate PhaseOk(s: State, skip: set<string>) {
    match s.phase
    case Watching(todo) => forall k :: k in todo ==> k in s.log && k !in skip
    case Handling(batch) => forall k :: PendingOk(s, batch, k)
    case _ => true
  }

  ghost predicate Inv(s: State, skip: set<string>) {
    LogsOk(s) && TrimOk(s) && WatchOk(s, skip) && PhaseOk(s, skip)
  }

  lemma AfterTrim(gone: seq<nat>, kept: seq<nat>, cursor: nat)
    requires forall i :: 0 <= i < |gone| ==> gone[i] <= cursor
    ensures After<nat>(Itself, kept, cursor) == After<nat>(Itself, gone + kept, cursor)
  {
    AfterConcat<nat>(Itself, gone, kept, cursor);
    AfterNone<nat>(Itself, gone, cursor);
  }

  lemma RetainedUnread(s: State, k: string)
    requires TrimOk(s) && k in s.log && k in s.loop.cursors
    ensures After<nat>(Itself, Retained(s, k), s.loop.cursors[k]) == After<nat>(Itself, s.log[k], s.loop.cursors[k])
  {
    var n := Trimmed(s, k);
    assert k in s.trimmed ==> TrimmedOk(s, k);
    AfterTrim(s.log[k][..n], s.log[k][n..], s.loop.cursors[k]);
    assert s.log[k][..n] + s.log[k][n..] == s.log[k];
  }

  /** Logs only grow and cursors only move forward. */
  ghost predicate Forward(s: State, t: State) {
    && t.trimmed == s.trimmed
    && (forall k :: k in s.log ==> k in t.log && s.log[k] <= t.log[k])
    && (forall k :: k in s.loop.cursors ==> k in t.loop.cursors && s.loop.cursors[k] <= t.loop.cursors[k])
  }

  lemma TrimPersists(s: State, t: State)
    requires TrimOk(s) && Forward(s, t)
    ensures TrimOk(t)
  {
    forall k | k in t.trimmed ensures TrimmedOk(t, k) {
      assert TrimmedOk(s, k);
    }
  }

  lemma AfterAppend(log: seq<nat>, id: nat, cursor: nat)
    requires cursor < id
    ensures After<nat>(Itself, log + [id], cursor) == After<nat>(Itself, log, cursor) + [id]
  {
    AfterConcat<nat>(Itself, log, [id], cursor);
    AfterAll<nat>(Itself, [id], cursor);
  }

  lemma AccountedAppend(log: map<string, seq<nat>>, l: Loop, k: string, id: nat)
    requires Accounted(log, l, k) && id > 0 && forall i :: 0 <= i < |log[k]| ==> log[k][i] < id
    ensures Accounted(log[k := log[k] + [id]], l, k)
    ensures After<nat>(Itself, log[k] + [id], l.cursors[k]) == After<nat>(Itself, log[k], l.cursors[k]) + [id]
  {
    AfterAppend(log[k], id, l.cursors[k]);
    AfterAppend(log[k], id, l.start[k]);
    var a, u := l.attempted[k], After<nat>(Itself, log[k], l.cursors[k]);
    assert a + (u + [id]) == (a + u) + [id];
  }

  /** A stream whose log and bookkeeping did not change is still accounted for. */
  lemma AccountedSame(log: map<string, seq<nat>>, l: Loop, log': map<string, seq<nat>>, l': Loop, j: string)
    requires Accounted(log, l, j) && j in log' && j in l'.cursors && j in l'.start && j in l'.attempted
    requires log'[j] == log[j] && l'.cursors[j] == l.cursors[j] && l'.start[j] == l.start[j]
    requires l'.attempted[j] == l.attempted[j]
    ensures Accounted(log', l', j)
  { }

  lemma AppendKeepsWatch(s: State, k: string, id: nat, skip: set<string>)
    requires WatchOk(s, skip) && k in s.log && id > 0 && forall i :: 0 <= i < |s.log[k]| ==> s.log[k][i] < id
    ensures WatchOk(Apply(s, Append(k, id)), skip)
    ensures k in s.loop.cursors ==> Accounted(s.log, s.loop, k)
  {
    var t := Apply(s, Append(k, id));
    forall j | j in t.loop.cursors ensures Accounted(t.log, t.loop, j) {
      assert Accounted(s.log, s.loop, j);
      if j == k {
        AccountedAppend(s.log, s.loop, k, id);
      } else {
        AccountedSame(s.log, s.loop, t.log, t.loop, j);
      }
    }
  }

  lemma PendingAppend(s: State, k: string, id: nat)
    requires s.phase.Handling? && forall j :: PendingOk(s, s.phase.batch, j)
    requires k in s.log && (k in s.loop.cursors ==> Accounted(s.log, s.loop, k))
    requires id > 0 && forall i :: 0 <= i < |s.log[k]| ==> s.log[k][i] < id
    ensures forall j :: PendingOk(Apply(s, Append(k, id)), s.phase.batch, j)
  {
    var t := Apply(s, Append(k, id));
    forall j ensures PendingOk(t, s.phase.batch, j) {
      assert PendingOk(s, s.phase.batch, j);
      if j == k && k in s.loop.cursors {
        AccountedAppend(s.log, s.loop, k, id);
      }
    }
  }

  lemma AppendKeeps(s: State, k: string, id: nat, skip: set<string>)
    requires Inv(s, skip) && Enabled(s, Append(k, id), skip)
    ensures Inv(Apply(s, Append(k, id)), skip)
  {
    var t := Apply(s, Append(k, id));
    TrimPersists(s, t);
    AppendKeepsWatch(s, k, id, skip);
    if t.phase.Handling? {
      PendingAppend(s, k, id);
    }
  }

  lemma AccountedStart(log: map<string, seq<nat>>, l: Loop, k: string)
    requires k in log && Increasing<nat>(Itself, log[k]) && k !in l.cursors
    ensures Accounted(log, WatchOne(l, k, TailId<nat>(Itself, log[k])), k)
  {
    AfterNone<nat>(Itself, log[k], TailId<nat>(Itself, log[k]));
  }

  lemma WatchKeepsKeys(l: Loop, k: string, tail: nat)
    requires SameKeys(l)
    ensures SameKeys(WatchOne(l, k, tail))
    ensures WatchOne(l, k, tail).cursors.Keys == l.cursors.Keys + {k}
  { }

  lemma AttemptKeepsKeys(l: Loop, e: Entry)
    requires SameKeys(l) && e.0 in l.cursors
    ensures SameKeys(AttemptOne(l, e)) && AttemptOne(l, e).cursors.Keys == l.cursors.Keys
  { }

  lemma WatchKeepsWatch(s: State, k: string, tail: nat, skip: set<string>)
    requires WatchOk(s, skip) && k !in skip
    requires k !in s.loop.cursors ==> Accounted(s.log, WatchOne(s.loop, k, tail), k)
    ensures WatchOk(s.(loop := WatchOne(s.loop, k, tail)), skip)
  {
    var l := WatchOne(s.loop, k, tail);
    WatchKeepsKeys(s.loop, k, tail);
    forall j | j in l.cursors ensures Accounted(s.log, l, j) && j !in skip {
      if j in s.loop.cursors {
        AccountedSame(s.log, s.loop, s.log, l, j);
      }
    }
  }

  lemma UnwatchedIsUntrimmed(s: State, k: string)
    requires TrimOk(s) && k in s.log && k !in s.loop.cursors
    ensures Retained(s, k) == s.log[k]
  {
    assert k in s.trimmed ==> TrimmedOk(s, k);
  }

  lemma WatchNew(s: State, k: string, skip: set<string>)
    requires LogsOk(s) && TrimOk(s) && WatchOk(s, skip) && k in s.log && k !in skip && k !in s.loop.cursors
    ensures TailId<nat>(Itself, Retained(s, k)) == TailId<nat>(Itself, s.log[k])
    ensures WatchOk(s.(loop := WatchOne(s.loop, k, TailId<nat>(Itself, s.log[k]))), skip)
  {
    UnwatchedIsUntrimmed(s, k);
    AccountedStart(s.log, s.loop, k);
    WatchKeepsWatch(s, k, TailId<nat>(Itself, s.log[k]), skip);
  }

  lemma SameLoop(s: State, t: State, skip: set<string>)
    requires Inv(s, skip) && t.log == s.log && t.loop == s.loop && t.trimmed == s.trimmed
    ensures LogsOk(t) && TrimOk(t) && WatchOk(t, skip)
  {
    TrimPersists(s, t);
  }

  lemma WatchKeeps(s: State, skip: set<string>)
    requires Inv(s, skip) && s.phase.Watching? && s.phase.todo != []
    ensures Inv(Apply(s, Watch), skip)
  {
    var t := Apply(s, Watch);
    var k := s.phase.todo[0];
    assert k in s.phase.todo && PhaseOk(t, skip);
    if k in s.loop.cursors {
      SameLoop(s, t, skip);
    } else {
      WatchNew(s, k, skip);
      assert t.loop == WatchOne(s.loop, k, TailId<nat>(Itself, s.log[k]));
      assert WatchOk(t, skip);
      TrimPersists(s, t);
    }
  }

  lemma AccountedAttempt(log: map<string, seq<nat>>, l: Loop, k: string, id: nat)
    requires Accounted(log, l, k) && Increasing<nat>(Itself, log[k])
    requires After<nat>(Itself, log[k], l.cursors[k]) != [] && After<nat>(Itself, log[k], l.cursors[k])[0] == id
    ensures Accounted(log, AttemptOne(l, (k, id)), k) && l.cursors[k] < id
    ensures After<nat>(Itself, log[k], id) == After<nat>(Itself, log[k], l.cursors[k])[1..]
  {
    AfterAdvance(log[k], l.cursors[k]);
    var a, u := l.attempted[k], After<nat>(Itself, log[k], l.cursors[k]);
    assert a + u == (a + [id]) + u[1..];
  }

  /** The head of a pending batch is the first unread entry of its stream. */
  lemma NextIsUnread(s: State)
    requires s.phase.Handling? && s.phase.batch != [] && PendingOk(s, s.phase.batch, s.phase.batch[0].0)
    ensures var (k, id) := s.phase.batch[0];
            k in s.loop.cursors && k in s.log
            && After<nat>(Itself, s.log[k], s.loop.cursors[k]) != [] && After<nat>(Itself, s.log[k], s.loop.cursors[k])[0] == id
  {
    var (k, id) := s.phase.batch[0];
    assert Project(s.phase.batch, k)[0] == id;
  }

  lemma AttemptKeepsWatch(s: State, t: State, k: string, skip: set<string>)
    requires WatchOk(s, skip) && s.phase.Handling? && s.phase.batch != []
    requires t.log == s.log && t.loop == AttemptOne(s.loop, s.phase.batch[0])
    requires k == s.phase.batch[0].0 && k in s.loop.cursors && Accounted(t.log, t.loop, k)
    ensures WatchOk(t, skip)
  {
    AttemptKeepsKeys(s.loop, s.phase.batch[0]);
    forall j | j in t.loop.cursors ensures Accounted(t.log, t.loop, j) && j !in skip {
      assert Accounted(s.log, s.loop, j);
      if j != k {
        AccountedSame(s.log, s.loop, t.log, t.loop, j);
      }
    }
  }

  lemma PendingAttempt(s: State, t: State)
    requires s.phase.Handling? && s.phase.batch != [] && forall j :: PendingOk(s, s.phase.batch, j)
    requires t.log == s.log && t.loop == AttemptOne(s.loop, s.phase.batch[0])
    requires var (k, id) := s.phase.batch[0];
             k in s.loop.cursors && k in s.log && After<nat>(Itself, s.log[k], s.loop.cursors[k]) != []
             && After<nat>(Itself, s.log[k], id) == After<nat>(Itself, s.log[k], s.loop.cursors[k])[1..]
    ensures forall j :: PendingOk(t, s.phase.batch[1..], j)
  {
    var batch := s.phase.batch;
    forall j ensures PendingOk(t, batch[1..], j) {
      assert PendingOk(s, batch, j);
      if j == batch[0].0 {
        assert Project(batch[1..], j) == Project(batch, j)[1..];
      }
    }
  }

  /** The head of a pending batch can be attempted. */
  lemma HeadIsNext(s: State, skip: set<string>)
    requires Inv(s, skip) && s.phase.Handling? && s.phase.batch != []
    ensures var (k, id) := s.phase.batch[0];
            k in s.loop.cursors && k in s.log && s.loop.cursors[k] < id
            && Accounted(s.log, AttemptOne(s.loop, (k, id)), k)
            && After<nat>(Itself, s.log[k], s.loop.cursors[k]) != []
            && After<nat>(Itself, s.log[k], id) == After<nat>(Itself, s.log[k], s.loop.cursors[k])[1..]
  {
    var (k, id) := s.phase.batch[0];
    assert PendingOk(s, s.phase.batch, k);
    NextIsUnread(s);
    assert Accounted(s.log, s.loop, k);
    AccountedAttempt(s.log, s.loop, k, id);
  }

  lemma AttemptForward(s: State, t: State)
    requires s.phase.Handling? && s.phase.batch != [] && s.phase.batch[0].0 in s.loop.cursors
    requires s.loop.cursors[s.phase.batch[0].0] <= s.phase.batch[0].1
    requires t.log == s.log && t.trimmed == s.trimmed && t.loop == AttemptOne(s.loop, s.phase.batch[0])
    ensures Forward(s, t)
  { }

  lemma AttemptKeeps(s: State, raised: bool, skip: set<string>)
    requires Inv(s, skip) && s.phase.Handling? && s.phase.batch != []
    ensures Inv(Apply(s, Handle(raised)), skip)
    ensures s.phase.batch[0].0 in s.loop.cursors && s.loop.cursors[s.phase.batch[0].0] < s.phase.batch[0].1
  {
    var t := Apply(s, Handle(raised));
    HeadIsNext(s, skip);
    assert s.phase.batch[0] == (s.phase.batch[0].0, s.phase.batch[0].1);
    AttemptKeepsWatch(s, t, s.phase.batch[0].0, skip);
    PendingAttempt(s, t);
    AttemptForward(s, t);
    TrimPersists(s, t);
  }

  lemma CreateKeeps(s: State, k: string, skip: set<string>)
    requires Inv(s, skip) && k !in s.log
    ensures Inv(Apply(s, Create(k)), skip)
  {
    var t := Apply(s, Create(k));
    TrimPersists(s, t);
    forall j | j in t.loop.cursors ensures Accounted(t.log, t.loop, j) && j !in skip {
      assert Accounted(s.log, s.loop, j);
      AccountedSame(s.log, s.loop, t.log, t.loop, j);
    }
    if t.phase.Handling? {
      forall j ensures PendingOk(t, t.phase.batch, j) {
        assert PendingOk(s, s.phase.batch, j);
      }
    }
  }

  lemma TrimKeeps(s: State, k: string, n: nat, skip: set<string>)
    requires Inv(s, skip) && Enabled(s, Trim(k, n), skip)
    ensures Inv(Apply(s, Trim(k, n)), skip)
  {
    var t := Apply(s, Trim(k, n));
    forall j | j in t.trimmed ensures TrimmedOk(t, j) {
      if j != k {
        assert TrimmedOk(s, j);
      }
    }
    if t.phase.Handling? {
      forall j ensures PendingOk(t, t.phase.batch, j) {
        assert PendingOk(s, s.phase.batch, j);
      }
    }
  }

  lemma StepKeepsInv(s: State, step: Step, skip: set<string>)
    requires Inv(s, skip) && Enabled(s, step, skip)
    ensures Inv(Apply(s, step), skip)
  {
    var t := Apply(s, step);
    match step
    case Append(k, id) => AppendKeeps(s, k, id, skip);
    case Watch =>
      if s.phase.todo != [] {
        WatchKeeps(s, skip);
      } else {
        SameLoop(s, t, skip);
      }
    case Handle(raised) =>
      if s.phase.batch != [] {
        AttemptKeeps(s, raised, skip);
      } else {
        SameLoop(s, t, skip);
      }
    case Read(response) =>
      SameLoop(s, t, skip);
      forall k ensures PendingOk(t, response, k) {
        if k in s.loop.cursors && k in s.log {
          RetainedUnread(s, k);
        }
      }
    case Create(k) => CreateKeeps(s, k, skip);
    case Trim(k, n) => TrimKeeps(s, k, n, skip);
    case _ => SameLoop(s, t, skip);
  }

  lemma LegalPrefix(log: map<string, seq<nat>>, steps: seq<Step>, skip: set<string>, n: nat)
    requires Legal(log, steps, skip) && n <= |steps|
    ensures Legal(log, steps[..n], skip)
  {
    forall i | 0 <= i < n ensures EnabledAt(log, steps[..n], skip, i) {
      assert EnabledAt(log, steps, skip, i);
      assert steps[..n][..i] == steps[..i];
    }
  }

  lemma {:induction false} EveryRunKeepsInv(log: map<string, seq<nat>>, steps: seq<Step>, skip: set<string>)
    requires Legal(log, steps, skip)
    ensures Inv(Run(log, steps), skip)
  {
    if steps != [] {
      var pre := steps[..|steps| - 1];
      LegalPrefix(log, steps, skip, |pre|);
      EveryRunKeepsInv(log, pre, skip);
      assert EnabledAt(log, steps, skip, |pre|);
      StepKeepsInv(Run(log, pre), steps[|pre|], skip);
    }
  }

  // ─── main results ────────────────────────────────────────────────────────

  lemma SamePrefix(a: seq<nat>, b: seq<nat>, rest: seq<nat>)
    requires a + rest == b + rest
    ensures a == b
  {
    assert |a + rest| == |b + rest|;
    assert a == (a + rest)[..|a|] && b == (b + rest)[..|b|];
  }

  /** Exactly once and without gaps: in every reachable state the entries handed to the
      forwarder from a watched stream are those with an id after its starting tail and up to
      its cursor, each once and in order, even though handling may have raised at any point.
      No stream consumed elsewhere is watched. */
  lemma ExactlyOnce(log: map<string, seq<nat>>, steps: seq<Step>, skip: set<string>, k: string)
    requires Legal(log, steps, skip) && k in Run(log, steps).loop.cursors
    ensures var s := Run(log, steps);
            k !in skip && k in s.log && k in s.loop.start && k in s.loop.attempted
            && s.loop.attempted[k] == Between(s.log[k], s.loop.start[k], s.loop.cursors[k])
            && Increasing<nat>(Itself, s.loop.attempted[k])
  {
    var s := Run(log, steps);
    EveryRunKeepsInv(log, steps, skip);
    assert Accounted(s.log, s.loop, k);
    AfterSplit(s.log[k], s.loop.start[k], s.loop.cursors[k]);
    SamePrefix(s.loop.attempted[k], Between(s.log[k], s.loop.start[k], s.loop.cursors[k]),
               After<nat>(Itself, s.log[k], s.loop.cursors[k]));
    BetweenIncreasing(s.log[k], s.loop.start[k], s.loop.cursors[k]);
  }

  /** A watched stream stays watched from the same start; its cursor and its attempts only grow. */
  ghost predicate Grows(l: Loop, m: Loop, k: string) {
    k in l.cursors && k in l.start && k in l.attempted ==>
      k in m.cursors && k in m.start && k in m.attempted
      && m.start[k] == l.start[k] && l.cursors[k] <= m.cursors[k] && l.attempted[k] <= m.attempted[k]
  }

  lemma WatchGrows(l: Loop, j: string, tail: nat, k: string)
    ensures Grows(l, WatchOne(l, j, tail), k)
  { }

  lemma CursorAdvances(s: State, skip: set<string>)
    requires Inv(s, skip) && s.phase.Handling? && s.phase.batch != []
    ensures s.phase.batch[0].0 in s.loop.cursors && s.loop.cursors[s.phase.batch[0].0] < s.phase.batch[0].1
  {
    AttemptKeeps(s, false, skip);
  }

  lemma AttemptGrows(l: Loop, e: Entry, k: string)
    requires e.0 in l.cursors && l.cursors[e.0] <= e.1
    ensures Grows(l, AttemptOne(l, e), k)
  { }

  lemma StepGrows(s: State, step: Step, skip: set<string>, k: string)
    requires Inv(s, skip) && Enabled(s, step, skip)
    ensures Grows(s.loop, Apply(s, step).loop, k)
  {
    match step
    case Handle(_) =>
      if s.phase.batch != [] {
        CursorAdvances(s, skip);
        AttemptGrows(s.loop, s.phase.batch[0], k);
      }
    case Watch =>
      if s.phase.todo != [] {
        var j := s.phase.todo[0];
        WatchGrows(s.loop, j, if j in s.log then TailId<nat>(Itself, Retained(s, j)) else 0, k);
      }
    case _ =>
  }

  lemma {:induction false} NeverReset(log: map<string, seq<nat>>, steps: seq<Step>, skip: set<string>, i: nat, k: string)
    requires Legal(log, steps, skip) && i <= |steps|
    ensures Grows(Run(log, steps[..i]).loop, Run(log, steps).loop, k)
  {
    if i == |steps| {
      assert steps[..i] == steps;
    } else {
      var pre := steps[..|steps| - 1];
      LegalPrefix(log, steps, skip, |pre|);
      NeverReset(log, pre, skip, i, k);
      assert pre[..i] == steps[..i];
      EveryRunKeepsInv(log, pre, skip);
      assert EnabledAt(log, steps, skip, |pre|);
      StepGrows(Run(log, pre), steps[|pre|], skip, k);
    }
  }

  // ─── where reading starts ────────────────────────────────────────────────

  /** The only step that starts watching a stream sets its cursor to the id of the last entry
      then written, or to 0 if there is none. */
  lemma WatchStartsAtTail(s: State, step: Step, skip: set<string>, k: string)
    requires Inv(s, skip) && Enabled(s, step, skip)
    requires k !in s.loop.cursors && k in Apply(s, step).loop.cursors
    ensures var l := Apply(s, step).loop;
            step.Watch? && k in s.log && k in l.start && k in l.attempted
            && l.start[k] == l.cursors[k] == (if s.log[k] == [] then 0 else s.log[k][|s.log[k]| - 1])
            && l.attempted[k] == []
  {
    if step.Handle? && s.phase.batch != [] {
      HeadIsNext(s, skip);
    } else if step.Watch? && s.phase.todo != [] {
      UnwatchedIsUntrimmed(s, s.phase.todo[0]);
    }
  }

  lemma LogGrows(s: State, step: Step, skip: set<string>, k: string)
    requires Enabled(s, step, skip) && k in s.log
    ensures k in Apply(s, step).log && s.log[k] <= Apply(s, step).log[k]
  { }

  lemma {:induction false} LogOnlyGrows(log: map<string, seq<nat>>, steps: seq<Step>, skip: set<string>, i: nat, k: string)
    requires Legal(log, steps, skip) && i <= |steps| && k in Run(log, steps[..i]).log
    ensures k in Run(log, steps).log && Run(log, steps[..i]).log[k] <= Run(log, steps).log[k]
  {
    if i == |steps| {
      assert steps[..i] == steps;
    } else {
      var pre := steps[..|steps| - 1];
      LegalPrefix(log, steps, skip, |pre|);
      assert pre[..i] == steps[..i];
      LogOnlyGrows(log, pre, skip, i, k);
      assert EnabledAt(log, steps, skip, |pre|);
      LogGrows(Run(log, pre), steps[|pre|], skip, k);
    }
  }

  /** Step `i` starts watching `k`. */
  ghost predicate StartsWatching(log: map<string, seq<nat>>, steps: seq<Step>, i: nat, k: string)
    requires i < |steps|
  {
    k !in Run(log, steps[..i]).loop.cursors && k in Run(log, steps[..i + 1]).loop.cursors
  }

  lemma StartInRun(log: map<string, seq<nat>>, steps: seq<Step>, skip: set<string>, i: nat, k: string)
    requires Legal(log, steps, skip) && i < |steps| && StartsWatching(log, steps, i, k)
    ensures var s, l := Run(log, steps[..i]), Run(log, steps[..i + 1]).loop;
            k in s.log && k in l.start && k in l.attempted
            && l.start[k] == (if s.log[k] == [] then 0 else s.log[k][|s.log[k]| - 1])
  {
    LegalPrefix(log, steps, skip, i);
    EveryRunKeepsInv(log, steps[..i], skip);
    assert EnabledAt(log, steps, skip, i) && steps[..i + 1][..i] == steps[..i];
    WatchStartsAtTail(Run(log, steps[..i]), steps[i], skip, k);
  }

  lemma RestIsNew(before: seq<nat>, rest: seq<nat>)
    requires Increasing<nat>(Itself, before + rest) && 0 !in before + rest
    ensures After<nat>(Itself, before + rest, if before == [] then 0 else before[|before| - 1]) == rest
    ensures forall x :: x in rest ==> x !in before
  {
    var all := before + rest;
    assert forall i :: 0 <= i < |rest| ==> all[|before| + i] == rest[i] && rest[i] in all;
    UnreadIsRest<nat>(Itself, before, rest);
    forall x | x in rest ensures x !in before {
      var j :| 0 <= j < |rest| && rest[j] == x;
      assert all[|before| + j] == x;
      assert forall i :: 0 <= i < |before| ==> all[i] == before[i];
    }
  }

  /** What was attempted from `k`, followed by what is unread, is what was written after `was`. */
  ghost predicate OnlySince(t: State, k: string, was: seq<nat>) {
    && k in t.log && was <= t.log[k] && k in t.loop.attempted && k in t.loop.cursors
    && t.loop.attempted[k] + After<nat>(Itself, t.log[k], t.loop.cursors[k]) == t.log[k][|was|..]
    && forall x :: x in t.loop.attempted[k] ==> x !in was
  }

  lemma SinceStart(t: State, skip: set<string>, k: string, was: seq<nat>)
    requires Inv(t, skip) && k in t.loop.cursors && k in t.log && was <= t.log[k] && k in t.loop.start
    requires t.loop.start[k] == if was == [] then 0 else was[|was| - 1]
    ensures OnlySince(t, k, was)
  {
    var since := t.log[k][|was|..];
    assert Accounted(t.log, t.loop, k) && t.log[k] == was + since;
    RestIsNew(was, since);
    var a, u := t.loop.attempted[k], After<nat>(Itself, t.log[k], t.loop.cursors[k]);
    assert forall x :: x in a ==> x in a + u;
  }

  /** History is skipped and nothing else: at every later point of the run, what was attempted
      from a stream followed by what is unread is exactly what was written to it after the step
      that started watching it. */
  lemma OnlyWrittenSince(log: map<string, seq<nat>>, steps: seq<Step>, skip: set<string>, i: nat, k: string)
    requires Legal(log, steps, skip) && i < |steps| && StartsWatching(log, steps, i, k)
    ensures k in Run(log, steps[..i]).log && OnlySince(Run(log, steps), k, Run(log, steps[..i]).log[k])
  {
    StartInRun(log, steps, skip, i, k);
    NeverReset(log, steps, skip, i + 1, k);
    LogOnlyGrows(log, steps, skip, i, k);
    EveryRunKeepsInv(log, steps, skip);
    SinceStart(Run(log, steps), skip, k, Run(log, steps[..i]).log[k]);
  }

  // ─── no entry twice ──────────────────────────────────────────────────────

  /** Step `i` hands over entry `e`. */
  ghost predicate Hands(log: map<string, seq<nat>>, steps: seq<Step>, i: nat, e: Entry)
    requires i < |steps|
  {
    var s := Run(log, steps[..i]);
    steps[i].Handle? && s.phase.Handling? && s.phase.batch != [] && s.phase.batch[0] == e
  }

  lemma HandlingMovesCursor(s: State, raised: bool, skip: set<string>, k: string, id: nat)
    requires Inv(s, skip) && s.phase.Handling? && s.phase.batch != [] && s.phase.batch[0] == (k, id)
    ensures k in s.loop.cursors && k in s.loop.start && k in s.loop.attempted && s.loop.cursors[k] < id
    ensures var l := Apply(s, Handle(raised)).loop;
            k in l.cursors && k in l.start && k in l.attempted && l.cursors[k] == id
  {
    HeadIsNext(s, skip);
    assert Accounted(s.log, s.loop, k);
  }

  lemma HandsMovesCursor(log: map<string, seq<nat>>, steps: seq<Step>, skip: set<string>, i: nat, e: Entry)
    requires Legal(log, steps, skip) && i < |steps| && Hands(log, steps, i, e)
    ensures var l, m := Run(log, steps[..i]).loop, Run(log, steps[..i + 1]).loop;
            e.0 in l.cursors && l.cursors[e.0] < e.1
            && e.0 in m.cursors && e.0 in m.start && e.0 in m.attempted && m.cursors[e.0] == e.1
  {
    LegalPrefix(log, steps, skip, i);
    EveryRunKeepsInv(log, steps[..i], skip);
    HandlingMovesCursor(Run(log, steps[..i]), steps[i].raised, skip, e.0, e.1);
    assert steps[..i + 1][..i] == steps[..i];
  }

  /** No entry is handed over twice in a run, so how its handling ended is a property of the entry. */
  lemma HandedOnce(log: map<string, seq<nat>>, steps: seq<Step>, skip: set<string>, i: nat, j: nat, e: Entry)
    requires Legal(log, steps, skip) && i < j < |steps| && Hands(log, steps, i, e)
    ensures !Hands(log, steps, j, e)
  {
    HandsMovesCursor(log, steps, skip, i, e);
    LegalPrefix(log, steps, skip, j);
    NeverReset(log, steps[..j], skip, i + 1, e.0);
    assert steps[..j][..i + 1] == steps[..i + 1];
    if Hands(log, steps, j, e) {
      HandsMovesCursor(log, steps, skip, j, e);
    }
  }

  ghost predicate Moves(s: State, step: Step, t: State, skip: set<string>) {
    Enabled(s, step, skip) && t == Apply(s, step)
  }

  /** A stretch of some run: from any state that satisfies the invariant, by enabled steps. */
  ghost predicate IsStretch(states: seq<State>, steps: seq<Step>, skip: set<string>) {
    && |states| == |steps| + 1 && Inv(states[0], skip)
    && forall i :: 0 <= i < |steps| ==> Moves(states[i], steps[i], states[i + 1], skip)
  }

  lemma {:induction false} StretchKeepsInv(states: seq<State>, steps: seq<Step>, skip: set<string>, n: nat)
    requires IsStretch(states, steps, skip) && n <= |steps|
    ensures Inv(states[n], skip)
  {
    if n > 0 {
      StretchKeepsInv(states, steps, skip, n - 1);
      assert Moves(states[n - 1], steps[n - 1], states[n], skip);
      StepKeepsInv(states[n - 1], steps[n - 1], skip);
    }
  }

  lemma StepOfRun(log: map<string, seq<nat>>, steps: seq<Step>, skip: set<string>, n: nat)
    requires Legal(log, steps, skip) && n < |steps|
    ensures Moves(Run(log, steps[..n]), steps[n], Run(log, steps[..n + 1]), skip)
  {
    assert EnabledAt(log, steps, skip, n);
    assert steps[..n + 1][..n] == steps[..n];
  }

  /** Every run has the states a stretch needs. */
  lemma RunIsStretch(log: map<string, seq<nat>>, steps: seq<Step>, skip: set<string>) returns (states: seq<State>)
    requires Legal(log, steps, skip)
    ensures IsStretch(states, steps, skip) && states[0] == Run(log, []) && states[|steps|] == Run(log, steps)
  {
    states := seq(|steps| + 1, n requires 0 <= n <= |steps| => Run(log, steps[..n]));
    assert steps[..|steps|] == steps;
    LegalPrefix(log, steps, skip, 0);
    EveryRunKeepsInv(log, steps[..0], skip);
    forall i | 0 <= i < |steps| ensures Moves(states[i], steps[i], states[i + 1], skip) {
      StepOfRun(log, steps, skip, i);
    }
  }

  /** The environment moves, or the next found key is looked at. */
  predicate StaysInDiscovery(step: Step) {
    step.Watch? || step.Create? || step.Append? || step.Trim?
  }

  predicate WatchedOrDue(s: State, k: string) {
    k in s.loop.cursors || (s.phase.Watching? && k in s.phase.todo)
  }

  lemma WatchedStays(s: State, step: Step, skip: set<string>, k: string)
    requires Enabled(s, step, skip) && StaysInDiscovery(step) && WatchedOrDue(s, k)
    ensures WatchedOrDue(Apply(s, step), k)
  { }

  /** What a discovery found is watched once its watch steps are through: every key of a stream
      that is not consumed elsewhere. */
  lemma {:induction false} DiscoveredAreWatched(states: seq<State>, steps: seq<Step>, skip: set<string>, n: nat, k: string)
    requires IsStretch(states, steps, skip) && 0 < n <= |steps| && steps[0].Discover?
    requires forall m :: 0 < m < n ==> StaysInDiscovery(steps[m])
    requires k in states[0].log && Discoverable(k) && k !in skip
    ensures WatchedOrDue(states[n], k)
    ensures states[n].phase.Ready? ==> k in states[n].loop.cursors
  {
    assert Moves(states[n - 1], steps[n - 1], states[n], skip);
    if n > 1 {
      DiscoveredAreWatched(states, steps, skip, n - 1, k);
      WatchedStays(states[n - 1], steps[n - 1], skip, k);
    }
  }

  /** These entries are the first unread ones of a watched stream. */
  ghost predicate NextUnread(s: State, j: string, entries: seq<nat>) {
    j in s.loop.cursors && j in s.log && entries <= After<nat>(Itself, s.log[j], s.loop.cursors[j])
  }

  lemma UnreadStays(s: State, step: Step, skip: set<string>, j: string, entries: seq<nat>)
    requires Inv(s, skip) && Enabled(s, step, skip) && !step.Handle? && NextUnread(s, j, entries)
    ensures NextUnread(Apply(s, step), j, entries)
  {
    if step.Append? && step.key == j {
      AfterConcat<nat>(Itself, s.log[j], [step.id], s.loop.cursors[j]);
    }
  }

  lemma PendingIsNext(s: State, skip: set<string>, batch: seq<Entry>, j: string)
    requires Inv(s, skip) && s.phase == Handling(batch) && j in s.loop.cursors
    ensures NextUnread(s, j, Project(batch, j))
  {
    assert PendingOk(s, batch, j) && Accounted(s.log, s.loop, j);
  }

  lemma SameUnread(s: State, t: State, j: string, entries: seq<nat>)
    requires t.log == s.log && t.loop == s.loop && NextUnread(s, j, entries)
    ensures NextUnread(t, j, entries)
  { }

  lemma UnreadAfterRaise(s: State, skip: set<string>, j: string)
    requires Inv(s, skip) && s.phase.Handling? && s.phase.batch != [] && j in s.loop.cursors
    ensures NextUnread(Apply(s, Handle(true)), j, Project(s.phase.batch[1..], j))
  {
    AttemptKeeps(s, false, skip);
    PendingIsNext(Apply(s, Handle(false)), skip, s.phase.batch[1..], j);
    SameUnread(Apply(s, Handle(false)), Apply(s, Handle(true)), j, Project(s.phase.batch[1..], j));
  }

  lemma {:induction false} UnreadUntilRead(states: seq<State>, steps: seq<Step>, skip: set<string>, n: nat, j: string, rest: seq<nat>)
    requires IsStretch(states, steps, skip) && 0 < n <= |steps| && NextUnread(states[1], j, rest)
    requires forall m :: 0 < m < n ==> !steps[m].Handle?
    ensures NextUnread(states[n], j, rest)
  {
    if n > 1 {
      UnreadUntilRead(states, steps, skip, n - 1, j, rest);
      StretchKeepsInv(states, steps, skip, n - 1);
      assert Moves(states[n - 1], steps[n - 1], states[n], skip);
      UnreadStays(states[n - 1], steps[n - 1], skip, j, rest);
    }
  }

  /** After a raise the rest of the batch is not lost: whatever is written, created or trimmed
      and whatever fails meanwhile, the next read returns it again, on every stream, before
      anything newer. */
  lemma RestIsReread(states: seq<State>, steps: seq<Step>, skip: set<string>, response: seq<Entry>, j: string)
    requires IsStretch(states, steps, skip) && steps != [] && steps[0] == Handle(true)
    requires forall m :: 0 < m < |steps| ==> !steps[m].Handle?
    requires states[0].phase.Handling? && states[0].phase.batch != [] && j in states[0].loop.cursors
    requires Enabled(states[|steps|], Read(response), skip)
    ensures Project(states[0].phase.batch[1..], j) <= Project(response, j)
  {
    assert Moves(states[0], steps[0], states[1], skip);
    UnreadAfterRaise(states[0], skip, j);
    UnreadUntilRead(states, steps, skip, |steps|, j, Project(states[0].phase.batch[1..], j));
    StretchKeepsInv(states, steps, skip, |steps|);
    RetainedUnread(states[|steps|], j);
  }

  /** The environment moves, or the next entry of the batch is handled without a raise. */
  predicate StaysInBatch(s: State, step: Step) {
    match step
    case Handle(raised) => !raised && s.phase.Handling? && s.phase.batch != []
    case Create(_) => true
    case Append(_, _) => true
    case Trim(_, _) => true
    case _ => false
  }

  /** What was attempted and what is left of the batch make up `all`. */
  ghost predicate OnCourse(s: State, k: string, all: seq<nat>) {
    s.phase.Handling? && k in s.loop.attempted && s.loop.attempted[k] + Project(s.phase.batch, k) == all
  }

  lemma StaysOnCourse(s: State, step: Step, k: string, all: seq<nat>)
    requires OnCourse(s, k, all) && StaysInBatch(s, step)
    ensures OnCourse(Apply(s, step), k, all)
  {
    if step.Handle? && s.phase.batch[0].0 == k {
      var a, id := s.loop.attempted[k], s.phase.batch[0].1;
      assert a + ([id] + Project(s.phase.batch[1..], k)) == (a + [id]) + Project(s.phase.batch[1..], k);
    }
  }

  lemma CourseIsSet(s: State, response: seq<Entry>, skip: set<string>, k: string)
    requires Inv(s, skip) && Enabled(s, Read(response), skip) && k in s.loop.cursors
    ensures k in s.log && k in s.loop.start
    ensures OnCourse(Apply(s, Read(response)), k, After<nat>(Itself, s.log[k], s.loop.start[k]))
  {
    assert Accounted(s.log, s.loop, k);
    RetainedUnread(s, k);
  }

  lemma {:induction false} CourseIsKept(states: seq<State>, steps: seq<Step>, skip: set<string>, n: nat, k: string, all: seq<nat>)
    requires IsStretch(states, steps, skip) && 0 < n <= |steps| && OnCourse(states[1], k, all)
    requires forall m :: 0 < m < n ==> StaysInBatch(states[m], steps[m])
    ensures OnCourse(states[n], k, all)
  {
    if n > 1 {
      CourseIsKept(states, steps, skip, n - 1, k, all);
      assert Moves(states[n - 1], steps[n - 1], states[n], skip);
      StaysOnCourse(states[n - 1], steps[n - 1], k, all);
    }
  }

  /** A batch handled without a raise catches up with everything written before it was read,
      although entries keep arriving while it is handled. */
  lemma ReadThenHandleAll(states: seq<State>, steps: seq<Step>, skip: set<string>, k: string)
    requires IsStretch(states, steps, skip) && steps != [] && steps[0].Read? && k in states[0].loop.cursors
    requires forall m :: 0 < m < |steps| ==> StaysInBatch(states[m], steps[m])
    ensures var s, t := states[0], states[|steps|];
            k in s.log && k in s.loop.start && OnCourse(t, k, After<nat>(Itself, s.log[k], s.loop.start[k]))
            && (t.phase.batch == [] ==> t.loop.attempted[k] == After<nat>(Itself, s.log[k], s.loop.start[k]))
  {
    assert Moves(states[0], steps[0], states[1], skip);
    CourseIsSet(states[0], steps[0].response, skip, k);
    CourseIsKept(states, steps, skip, |steps|, k, After<nat>(Itself, states[0].log[k], states[0].loop.start[k]));
  }

  /** The first `n` entries of a batch handled without a raise. */
  function Handled(s: State, n: nat): State {
    if n == 0 then s else Apply(Handled(s, n - 1), Handle(false))
  }

  lemma AttemptNext(l: Loop, batch: seq<Entry>, n: nat)
    requires n < |batch|
    ensures AttemptAll(l, batch[..n + 1]) == AttemptOne(AttemptAll(l, batch[..n]), batch[n])
  {
    assert batch[..n + 1][..n] == batch[..n];
  }

  /** One more handled entry; a raise changes only where the loop continues. */
  lemma HandleNext(s: State, batch: seq<Entry>, n: nat)
    requires n < |batch| && s.phase == Handling(batch[n..])
    ensures Apply(s, Handle(false)) == s.(loop := AttemptOne(s.loop, batch[n]), phase := Handling(batch[n + 1..]))
    ensures Apply(s, Handle(true)) == Apply(s, Handle(false)).(phase := Top)
  {
    assert batch[n..][1..] == batch[n + 1..];
  }

  /** Handling steps on the batch are the method below on a prefix of it; a raise at the last
      of them changes only where the loop continues. */
  lemma {:induction false} StepsAreAttempts(s: State, n: nat)
    requires s.phase.Handling? && n <= |s.phase.batch|
    ensures Handled(s, n) == s.(loop := AttemptAll(s.loop, s.phase.batch[..n]), phase := Handling(s.phase.batch[n..]))
    ensures n > 0 ==> Apply(Handled(s, n - 1), Handle(true)) == Handled(s, n).(phase := Top)
  {
    if n > 0 {
      StepsAreAttempts(s, n - 1);
      AttemptNext(s.loop, s.phase.batch, n - 1);
      HandleNext(Handled(s, n - 1), s.phase.batch, n - 1);
    }
  }

  /** The first `n` watch steps of a discovery. */
  function Watched(s: State, n: nat): State {
    if n == 0 then s else Apply(Watched(s, n - 1), Watch)
  }

  lemma {:induction false} WatchesAll(s: State, n: nat)
    requires s.phase.Watching? && n <= |s.phase.todo|
    ensures var t := Watched(s, n);
            t == s.(loop := t.loop, phase := Watching(s.phase.todo[n..]))
            && (forall k :: k in s.loop.cursors ==> k in t.loop.cursors)
            && forall i :: 0 <= i < n ==> s.phase.todo[i] in t.loop.cursors
  {
    if n > 0 {
      WatchesAll(s, n - 1);
      assert s.phase.todo[n - 1..][1..] == s.phase.todo[n..];
    }
  }

  /** Discovery, then one watch step per found key and one more: all are watched, and a read is next. */
  lemma DiscoveryCompletes(s: State, found: seq<string>)
    ensures var t := Watched(Apply(s, Discover(found)), |found| + 1);
            t.phase.Ready? && forall k :: k in found ==> k in t.loop.cursors
  {
    WatchesAll(Apply(s, Discover(found)), |found|);
    var t := Watched(Apply(s, Discover(found)), |found|);
    assert found[|found|..] == [] && t.phase == Watching([]);
    assert Watched(Apply(s, Discover(found)), |found| + 1) == Apply(t, Watch);
  }

  lemma EmptyBatchEnds(s: State)
    requires s.phase == Handling([])
    ensures Apply(s, Handle(false)) == s.(phase := Top)
  { }

  /** A whole batch handled without a raise, one step per entry and one more: all are attempted,
      in order, and the loop is back at its top. */
  lemma BatchCompletes(s: State, batch: seq<Entry>)
    requires s.phase == Handling(batch)
    ensures Handled(s, |batch| + 1) == s.(loop := AttemptAll(s.loop, batch), phase := Top)
  {
    StepsAreAttempts(s, |batch|);
    assert batch[..|batch|] == batch && batch[|batch|..] == [];
    EmptyBatchEnds(Handled(s, |batch|));
  }

  // ─── the loop body in its own form ───────────────────────────────────────

  class EventStreamLoop {
    var cursors: map<string, nat>
    ghost var start: map<string, nat>
    ghost var attempted: map<string, seq<nat>>

    ghost function View(): Loop
      reads this
    {
      Loop(cursors, start, attempted)
    }

    constructor ()
      ensures View() == IDLE
    {
      cursors, start, attempted := map[], map[], map[];
    }

    /** `_stream_tail_cursor`: the newest entry, if any, as the reverse range returns it. */
    method StreamTailCursor(entries: seq<nat>) returns (cursor: nat)
      ensures entries == [] ==> cursor == 0
      ensures entries != [] ==> cursor == entries[|entries| - 1]
    {
      cursor := if entries == [] then 0 else entries[|entries| - 1];
    }

    /** The loop over what a discovery found: unwatched streams start after their tail. */
    method WatchFound(found: seq<string>, entries: map<string, seq<nat>>)
      requires forall k :: k in found ==> k in entries
      modifies this
      ensures forall k :: k in cursors <==> k in old(cursors) || k in found
      ensures forall k :: k in old(cursors) ==> cursors[k] == old(cursors)[k]
      ensures forall k :: k in found && k !in old(cursors) ==>
                cursors[k] == if entries[k] == [] then 0 else entries[k][|entries[k]| - 1]
    {
      for i := 0 to |found|
        invariant forall k :: k in cursors <==> k in old(cursors) || k in found[..i]
        invariant forall k :: k in old(cursors) ==> cursors[k] == old(cursors)[k]
        invariant forall k :: k in found[..i] && k !in old(cursors) ==>
                    cursors[k] == if entries[k] == [] then 0 else entries[k][|entries[k]| - 1]
      {
        assert found[..i + 1] == found[..i] + [found[i]];
        var tail := StreamTailCursor(entries[found[i]]);
        WatchKey(found[i], tail);
      }
      assert found[..|found|] == found;
    }

    /** One discovered key; `tail` is the stream's last id as Redis reports it. */
    method WatchKey(key: string, tail: nat)
      modifies this
      ensures View() == WatchOne(old(View()), key, tail)
    {
      if key !in cursors {
        cursors := cursors[key := tail];
        start := start[key := tail];
        attempted := attempted[key := []];
      }
    }

    /** The inner loops over a response: each entry moves its cursor and is then handled.
        `raises[i]` says whether handling entry `i` raises, which abandons the rest. */
    method HandleResponse(batch: seq<Entry>, raises: seq<bool>) returns (handled: nat)
      requires |raises| == |batch|
      modifies this
      ensures handled <= |batch| && View() == AttemptAll(old(View()), batch[..handled])
      ensures forall i :: 0 <= i < handled - 1 ==> !raises[i]
      ensures handled < |batch| ==> handled > 0 && raises[handled - 1]
    {
      handled := 0;
      while handled < |batch|
        invariant handled <= |batch| && View() == AttemptAll(old(View()), batch[..handled])
        invariant forall i :: 0 <= i < handled ==> !raises[i]
      {
        var (key, id) := batch[handled];
        cursors := cursors[key := id];
        attempted := attempted[key := (if key in attempted then attempted[key] else []) + [id]];
        handled := handled + 1;
        assert batch[..handled][..handled - 1] == batch[..handled - 1];
        if raises[handled - 1] {
          return;
        }
      }
    }
  }
}
