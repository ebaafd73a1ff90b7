/** From the Redis streams to the messages: the stream loop driving the notifier, with in-process
    arrivals, releases and registry changes in between. */
module Pipeline {
  import opened Wrappers
  import opened Events
  import opened OrderProgress
  import opened OrderFold
  import opened FillGate
  import opened Intake
  import TrackerRuns
  import Routing
  import StreamLoop
  import Streams

  /** How handling an entry ends: it returns, or it raises after or before the tracker has
      observed the body. */
  datatype Outcome = Handled | Muted | Lost

  /** A stream entry: its plain-text topic, if any, its decoded body, and how its handling ends.
      Entries never change and are handed over at most once (`StreamLoop.HandedOnce`), so all of
      this is determined by key and id. */
  datatype Content = Content(topic: Option<string>, body: Body, outcome: Outcome)

  type Contents = StreamLoop.Entry -> Content

  /** A step of the stream loop or its environment, or something that happens beside it. */
  datatype Step = Loop(step: StreamLoop.Step) | Beside(h: Happening)

  type Logs = map<string, seq<nat>>

  function LoopSteps(steps: seq<Step>): seq<StreamLoop.Step> {
    if steps == [] then []
    else LoopSteps(steps[..|steps| - 1]) + (if steps[|steps| - 1].Loop? then [steps[|steps| - 1].step] else [])
  }

  function LoopState(log: Logs, steps: seq<Step>): StreamLoop.State {
    StreamLoop.Run(log, LoopSteps(steps))
  }

  /** Handling one entry, which raises or not. */
  function Handling(c: Content, raised: bool): seq<Happening> {
    if c.topic.None? then []
    else if !raised then [Arrive(Stream, "", c.topic.value, c.body)]
    else if c.outcome.Muted? && ShouldForwardTopic(c.topic.value) then [Failed(c.body)]
    else []
  }

  /** What the notifier experiences in one step. */
  function Caused(s: StreamLoop.State, step: Step, contents: Contents): seq<Happening> {
    match step
    case Beside(h) => [h]
    case Loop(Handle(raised)) => if s.phase.Handling? && s.phase.batch != [] then Handling(contents(s.phase.batch[0]), raised) else []
    case Loop(_) => []
  }

  function Happenings(log: Logs, steps: seq<Step>, contents: Contents): seq<Happening> {
    if steps == [] then []
    else
      var pre := steps[..|steps| - 1];
      Happenings(log, pre, contents) + Caused(LoopState(log, pre), steps[|steps| - 1], contents)
  }

  /** The raises of a run are those of its entries. */
  predicate Consistent(s: StreamLoop.State, step: Step, contents: Contents) {
    step.Loop? && step.step.Handle? && s.phase.Handling? && s.phase.batch != [] ==>
      (step.step.raised <==> !contents(s.phase.batch[0]).outcome.Handled?)
  }

  ghost predicate AllConsistent(log: Logs, steps: seq<Step>, contents: Contents) {
    steps == []
    || (AllConsistent(log, steps[..|steps| - 1], contents)
        && Consistent(LoopState(log, steps[..|steps| - 1]), steps[|steps| - 1], contents))
  }

  ghost predicate Legal(log: Logs, steps: seq<Step>, skip: set<string>, contents: Contents) {
    StreamLoop.Legal(log, LoopSteps(steps), skip) && AllConsistent(log, steps, contents)
  }

  /** An observed event of an order, and whether its handling got as far as sending. */
  datatype Note = Note(body: Body, told: bool)

  function Bodies(notes: seq<Note>): seq<Body> {
    if notes == [] then [] else Bodies(notes[..|notes| - 1]) + [notes[|notes| - 1].body]
  }

  function NoteOf(c: Content, order: string): seq<Note> {
    if c.topic.Some? && ShouldForwardTopic(c.topic.value) && c.body.OrderId() == Some(order) && !c.outcome.Lost?
    then [Note(c.body, c.outcome.Handled?)] else []
  }

  /** The events of one order among the given entries of a stream, where the topic gate admits
      them and handling did not raise before they were observed. */
  function OrderNotes(key: string, ids: seq<nat>, contents: Contents, order: string): seq<Note> {
    if ids == [] then []
    else OrderNotes(key, ids[..|ids| - 1], contents, order) + NoteOf(contents((key, ids[|ids| - 1])), order)
  }

  predicate Concerns(h: Happening, order: string) {
    (h.Arrive? || h.Failed?) && h.body.OrderId() == Some(order)
  }

  /** No event of the order comes from anywhere but the given stream. */
  ghost predicate OnlyFrom(key: string, order: string, steps: seq<Step>, contents: Contents) {
    && (forall e: StreamLoop.Entry :: e.0 != key ==> contents(e).body.OrderId() != Some(order))
    && (forall i :: 0 <= i < |steps| && steps[i].Beside? ==> !Concerns(steps[i].h, order))
  }

  // ─── the order's events are those of its stream ──────────────────────────

  function Attempted(l: StreamLoop.Loop, key: string): seq<nat> {
    if key in l.attempted then l.attempted[key] else []
  }

  /** What one happening adds to the observed events of an order. */
  function NoteBy(h: Happening, order: string): seq<Note> {
    if OpOf(h) != [] && OpOf(h)[0].Observes(order) then [Note(OpOf(h)[0].body, !h.Failed?)] else []
  }

  /** The observed events of an order, in order. */
  function Notes(hs: seq<Happening>, order: string): seq<Note> {
    if hs == [] then [] else Notes(hs[..|hs| - 1], order) + NoteBy(hs[|hs| - 1], order)
  }

  lemma {:induction false} NotesConcat(a: seq<Happening>, b: seq<Happening>, order: string)
    ensures Notes(a + b, order) == Notes(a, order) + Notes(b, order)
  {
    if b == [] {
      assert a + b == a;
    } else {
      assert (a + b)[..|a + b| - 1] == a + b[..|b| - 1];
      NotesConcat(a, b[..|b| - 1], order);
    }
  }

  lemma NotesOfOne(h: Happening, order: string)
    ensures Notes([h], order) == NoteBy(h, order)
  {
    assert [h][..0] == [];
  }

  lemma NotesOfHandling(c: Content, order: string)
    ensures Notes(Handling(c, !c.outcome.Handled?), order) == NoteOf(c, order)
  {
    var hs := Handling(c, !c.outcome.Handled?);
    if hs != [] {
      NotesOfOne(hs[0], order);
      assert hs == [hs[0]];
    }
  }

  lemma OrderNotesAppend(key: string, ids: seq<nat>, id: nat, contents: Contents, order: string)
    ensures OrderNotes(key, ids + [id], contents, order)
         == OrderNotes(key, ids, contents, order) + NoteOf(contents((key, id)), order)
  {
    assert (ids + [id])[..|ids|] == ids;
  }

  function Next(s: StreamLoop.State, step: Step): StreamLoop.State {
    if step.Loop? then StreamLoop.Apply(s, step.step) else s
  }

  lemma WatchKeepsAttempts(l: StreamLoop.Loop, k: string, tail: nat, key: string)
    requires StreamLoop.SameKeys(l)
    ensures Attempted(StreamLoop.WatchOne(l, k, tail), key) == Attempted(l, key)
  { }

  lemma AttemptsUnchanged(s: StreamLoop.State, step: StreamLoop.Step, key: string, skip: set<string>)
    requires StreamLoop.Inv(s, skip) && StreamLoop.Enabled(s, step, skip)
    requires step.Handle? ==> s.phase.batch == []
    ensures Attempted(StreamLoop.Apply(s, step).loop, key) == Attempted(s.loop, key)
  {
    if step.Watch? && s.phase.todo != [] {
      var k := s.phase.todo[0];
      WatchKeepsAttempts(s.loop, k, if k in s.log then Streams.TailId<nat>(StreamLoop.Itself, StreamLoop.Retained(s, k)) else 0, key);
    }
  }

  lemma AttemptAppends(s: StreamLoop.State, raised: bool, contents: Contents, key: string, order: string)
    requires s.phase.Handling? && s.phase.batch != []
    requires s.phase.batch[0].0 != key ==> contents(s.phase.batch[0]).body.OrderId() != Some(order)
    ensures OrderNotes(key, Attempted(StreamLoop.Apply(s, StreamLoop.Handle(raised)).loop, key), contents, order)
         == OrderNotes(key, Attempted(s.loop, key), contents, order) + NoteOf(contents(s.phase.batch[0]), order)
  {
    var e := s.phase.batch[0];
    if e.0 == key {
      assert e == (key, e.1);
      OrderNotesAppend(key, Attempted(s.loop, key), e.1, contents, order);
    } else {
      assert NoteOf(contents(e), order) == [];
    }
  }

  /** One step adds to the order's observed events what it adds to the attempts on its stream. */
  lemma CausedMatches(s: StreamLoop.State, step: Step, contents: Contents, key: string, order: string, skip: set<string>)
    requires StreamLoop.Inv(s, skip) && (step.Loop? ==> StreamLoop.Enabled(s, step.step, skip))
    requires OnlyFrom(key, order, [step], contents) && Consistent(s, step, contents)
    ensures OrderNotes(key, Attempted(Next(s, step).loop, key), contents, order)
         == OrderNotes(key, Attempted(s.loop, key), contents, order) + Notes(Caused(s, step, contents), order)
  {
    assert [step][0] == step;
    if step.Beside? {
      NotesOfOne(step.h, order);
    } else if step.step.Handle? && s.phase.batch != [] {
      AttemptAppends(s, step.step.raised, contents, key, order);
      NotesOfHandling(contents(s.phase.batch[0]), order);
    } else {
      AttemptsUnchanged(s, step.step, key, skip);
    }
  }

  lemma LegalStep(log: Logs, steps: seq<Step>, skip: set<string>, contents: Contents)
    requires Legal(log, steps, skip, contents) && steps != []
    ensures var pre, last := steps[..|steps| - 1], steps[|steps| - 1];
            Legal(log, pre, skip, contents) && StreamLoop.Inv(LoopState(log, pre), skip)
            && (last.Loop? ==> StreamLoop.Enabled(LoopState(log, pre), last.step, skip))
            && Consistent(LoopState(log, pre), last, contents)
            && LoopState(log, steps) == Next(LoopState(log, pre), last)
  {
    var pre, last := steps[..|steps| - 1], steps[|steps| - 1];
    var all, n := LoopSteps(steps), |LoopSteps(pre)|;
    assert all[..n] == LoopSteps(pre);
    StreamLoop.LegalPrefix(log, all, skip, n);
    StreamLoop.EveryRunKeepsInv(log, all[..n], skip);
    if last.Loop? {
      StreamLoop.StepOfRun(log, all, skip, n);
      assert all[..n + 1] == all;
    } else {
      assert all == LoopSteps(pre);
    }
  }

  lemma {:induction false} ObservedAreAttempted(log: Logs, steps: seq<Step>, skip: set<string>, contents: Contents, key: string, order: string)
    requires Legal(log, steps, skip, contents) && OnlyFrom(key, order, steps, contents)
    ensures Notes(Happenings(log, steps, contents), order)
         == OrderNotes(key, Attempted(LoopState(log, steps).loop, key), contents, order)
  {
    if steps != [] {
      var pre, last := steps[..|steps| - 1], steps[|steps| - 1];
      LegalStep(log, steps, skip, contents);
      assert OnlyFrom(key, order, pre, contents) && OnlyFrom(key, order, [last], contents);
      ObservedAreAttempted(log, pre, skip, contents, key, order);
      CausedMatches(LoopState(log, pre), last, contents, key, order, skip);
      NotesConcat(Happenings(log, pre, contents), Caused(LoopState(log, pre), last, contents), order);
    }
  }

  /** The events of one order written to its stream after the starting tail and up to the cursor,
      but for those lost to a raise. */
  function Consumed(s: StreamLoop.State, key: string, contents: Contents, order: string): seq<Note> {
    if key in s.log && key in s.loop.start && key in s.loop.cursors
    then OrderNotes(key, StreamLoop.Between(s.log[key], s.loop.start[key], s.loop.cursors[key]), contents, order)
    else []
  }

  /** What the tracker has observed of an order, and how far each event got, is what its stream
      holds of it in (start, cursor], less what was lost to a raise. */
  lemma ObservedAreConsumed(log: Logs, steps: seq<Step>, skip: set<string>, contents: Contents, key: string, order: string)
    requires Legal(log, steps, skip, contents) && OnlyFrom(key, order, steps, contents)
    ensures Notes(Happenings(log, steps, contents), order) == Consumed(LoopState(log, steps), key, contents, order)
  {
    var l := LoopState(log, steps).loop;
    ObservedAreAttempted(log, steps, skip, contents, key, order);
    StreamLoop.EveryRunKeepsInv(log, LoopSteps(steps), skip);
    if key in l.cursors {
      StreamLoop.ExactlyOnce(log, LoopSteps(steps), skip, key);
    }
  }

  // ─── from the log to the messages ────────────────────────────────────────

  function NotifierAfter(registry: Routing.Registry, log: Logs, steps: seq<Step>, contents: Contents,
                         channels: Routing.Channels, cap: nat): Intake.State
  {
    Play(Intake.State(NO_ORDERS, registry, []), Happenings(log, steps, contents), channels, cap)
  }

  /** What handling one more entry does to the notifier: a handled one goes through the intake, one
      that raised after being observed is only that, and a lost one leaves no trace. */
  lemma OutcomeOf(registry: Routing.Registry, log: Logs, steps: seq<Step>, raised: bool, contents: Contents,
                  channels: Routing.Channels, cap: nat)
    requires var s := LoopState(log, steps); s.phase.Handling? && s.phase.batch != []
    requires Consistent(LoopState(log, steps), Loop(StreamLoop.Handle(raised)), contents)
    requires contents(LoopState(log, steps).phase.batch[0]).topic.Some?
    ensures var c := contents(LoopState(log, steps).phase.batch[0]);
            var before := NotifierAfter(registry, log, steps, contents, channels, cap);
            var after := NotifierAfter(registry, log, steps + [Loop(StreamLoop.Handle(raised))], contents, channels, cap);
            match c.outcome
            case Handled => after == StreamEntry(before, c.topic, c.body, channels, cap)
            case Muted => after == if ShouldForwardTopic(c.topic.value)
                                   then before.(tracker := Observed(before.tracker, c.body, cap)) else before
            case Lost => after == before
  {
    var step, hs := Loop(StreamLoop.Handle(raised)), Happenings(log, steps, contents);
    assert (steps + [step])[..|steps|] == steps;
    var more := Caused(LoopState(log, steps), step, contents);
    if more == [] {
      assert hs + more == hs;
    } else {
      assert more == [more[0]] && (hs + more)[..|hs|] == hs;
    }
  }

  /** The last `OrderFilled` among some observed events. */
  function LastFillNote(notes: seq<Note>): Option<Note> {
    if notes == [] then None
    else if notes[|notes| - 1].body.HasType(ORDER_FILLED) then Some(notes[|notes| - 1])
    else LastFillNote(notes[..|notes| - 1])
  }

  /** The observed events and the tracker calls behind them tell the same about the order. */
  ghost predicate SameStory(notes: seq<Note>, ops: seq<TrackerRuns.Op>, told: seq<bool>, order: string) {
    |told| == |ops| && TrackerRuns.BodiesOf(ops, order) == Bodies(notes)
    && LastFillNote(notes) == if LastFill(ops, order) < 0 then None
                              else Some(Note(ops[LastFill(ops, order)].body, told[LastFill(ops, order)]))
  }

  lemma StoryGoesOn(notes: seq<Note>, ops: seq<TrackerRuns.Op>, told: seq<bool>, order: string, op: TrackerRuns.Op, tells: bool)
    requires SameStory(notes, ops, told, order)
    ensures SameStory(notes + (if op.Observes(order) then [Note(op.body, tells)] else []), ops + [op], told + [tells], order)
  {
    assert (ops + [op])[..|ops|] == ops;
    if op.Observes(order) {
      assert (notes + [Note(op.body, tells)])[..|notes|] == notes;
    } else {
      assert notes + [] == notes;
    }
  }

  lemma {:induction false} NotesTellOps(hs: seq<Happening>, order: string)
    ensures SameStory(Notes(hs, order), OpsOf(hs), Told(hs), order)
  {
    if hs != [] {
      var pre, h := hs[..|hs| - 1], hs[|hs| - 1];
      NotesTellOps(pre, order);
      if OpOf(h) == [] {
        assert OpsOf(hs) == OpsOf(pre) && Told(hs) == Told(pre) && Notes(hs, order) == Notes(pre, order);
      } else {
        assert OpOf(h) == [OpOf(h)[0]];
        StoryGoesOn(Notes(pre, order), OpsOf(pre), Told(pre), order, OpOf(h)[0], !h.Failed?);
      }
    }
  }

  /** The messages about an order as a function of the log, over every run: if what its stream
      holds of it in (start, cursor], less what was lost to a raise, is orderly, and the order is
      left alone until its last fill, then exactly one `OrderFilled` message was sent, of that last
      fill, if the fills add up to the total and handling the last did not raise, and none
      otherwise; whatever else arrived, failed, was released or announced in between. */
  lemma OneMessageFromLog(registry: Routing.Registry, log: Logs, steps: seq<Step>, skip: set<string>, contents: Contents,
                          channels: Routing.Channels, cap: nat, key: string, order: string, total: real, lot: real)
    requires Legal(log, steps, skip, contents) && OnlyFrom(key, order, steps, contents)
    requires Orderly(Bodies(Consumed(LoopState(log, steps), key, contents, order)), total, lot)
    requires Quiet(OpsOf(Happenings(log, steps, contents)), cap, order)
    ensures var notes := Consumed(LoopState(log, steps), key, contents, order);
            var last := LastFillNote(notes);
            FillsSent(NotifierAfter(registry, log, steps, contents, channels, cap).sent, order)
            == if SumQty(Fills(Bodies(notes))) == total && last.Some? && last.value.told then [last.value.body] else []
  {
    var hs := Happenings(log, steps, contents);
    ObservedAreConsumed(log, steps, skip, contents, key, order);
    NotesTellOps(hs, order);
    OneMessagePerFilledOrder(registry, hs, channels, cap, order, total, lot);
  }
}
