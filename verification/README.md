# TinoHelm: notifier event pipeline and sandbox restart recovery

A Dafny model of the two stateful parts of TinoHelm.

**The notifier.** Pods write trading events to Redis streams. The notifier finds those streams,
reads each from a concrete cursor, feeds every event to a bounded per-order aggregator, applies a
chain of gates that turns a burst of partial fills into one message, resolves the event's strategy
id to a registered handle, and enqueues the event for the sandbox, live or logging channel. Beside
it, a registry of strategies is kept from an announce stream, and operators' report commands turn
broadcast reports into request/response through a table of futures.

**Sandbox restart recovery.** A stopping pod saves the totals of its simulated accounts under
private Redis keys; a starting pod, whose accounts have been reset, replays them and hands its open
orders back to the matching engines.

The main results, by module:

| module | result |
|---|---|
| `Lru`, `TrackerRuns` | the capped order dictionary is a tail of the uncapped recency list; a key is held if and only if it was touched, not released since, and never pushed `cap` deep; a held slot is the unbounded fold of its order's events since the slot was created |
| `OrderFold` | closed form of that fold; the average price lies between the extreme fill prices, and is the average over the priced fills if and only if every fill has a price |
| `FillGate`, `Intake` | over any interleaving of orders, exactly one `OrderFilled` message per filled order and none otherwise, down to the list of messages sent; the two intake paths agree over whole runs, in any mixture; every fill of an order of unknown total is sent; every message goes to logging or to the channel commands for its strategy are accepted from |
| `Pipeline` | the same composed with the stream loop: over every run, raises included, the messages about an order as a function of what its Redis stream holds in (start, cursor] and of which entries' handling raised, before or after they were observed |
| `Routing` | longest-suffix resolution is independent of iteration order, idempotent, and undoes `Class-handle` exactly when the built id is not itself a key; events and commands of a handle agree on live under an exact condition |
| `StreamLoop` | over every run, the entries handled from a watched stream are exactly those written since it was first watched, up to the cursor, each once, in order, although handling may raise in the middle of a batch; the rest of an abandoned batch is read again, and a batch handled without a raise catches up, while the environment keeps writing |
| `Announcements` | the registry is the last announced mode of each id, no entry is skipped or repeated, each protocol drift is reported at most once, and certainly unless a pass gave up on it; one whose enqueueing raised is never reported again, those behind it are when announced again |
| `Forwarder`, `ReportCommand` | safety of the listener table under every interleaving, exactly when a report reaches a waiting listener and when it reaches nobody, that every finished command posts exactly the reports it holds, and that it leaves nothing behind |
| `Recovery`, `SandboxPod`, `RecoveryRuns` | the snapshot round-trips if and only if currency codes are distinct, decodes to all or nothing, and over any run of several pods a restart is the identity on money |
| `Table` | alignment of the fixed-width table |

Classes follow the source's objects (`Slot`, `OrderProgressTracker`, `Notifier`, `EventStreamLoop`,
`Autodiscover`, `DiscordForwarder`, `Redis`, `Pod`); each of their methods is proved against a
specification function of the old state, and the results over whole runs are proved about those
functions. `Wrappers`, `Text`, `Seqs`, `Streams` and `Dicts` hold shared vocabulary (options, string
facts, sequences without repetition, append-only streams, insertion-ordered dictionaries).

Where the code and its comments disagree, the model follows the code:

* An `OrderUpdated` event does not change the tracked total (`OrderFold.FoldMeaning`).
* A fill without a price counts towards the quantity but not the notional, so the displayed average
  is not that of the priced fills then, unless the notional is zero (`OrderFold.VwapExactIff`).
* The completeness gate has a slack of 1e-9 that the release test lacks; a forwarded fill can leave
  its slot behind (`FillGate.SlotLeftBehindIff`, and `FillGate.SlotIsLeftBehind` for a run).
* A report whose normal send was skipped can still reach nobody: it reaches a waiting listener
  exactly when it is the first of its key in the queue and nobody cancels or drops the listener
  before its turn (`Forwarder.DeliveredIff`, `Forwarder.SecondReportLost`, and
  `Forwarder.ReportIsLost` for a run).
* A drift warning is not always a one-shot envelope: if enqueueing it raises, it stays marked as
  warned and is never sent (`Announcements.StuckForGood`).
* The remark at `tinohelm/notifier/runner.py:1274` that re-posted replies always take the normal
  send path holds only while nobody else waits for the same report (`ReportCommand.RepostIff`, and
  `ReportCommand.RepostIsSwallowed` for a run in which somebody does).

## Model

| member | source | states |
|---|---|---|
| Lru.BoundedIsTail | tinohelm/notifier/handlers.py:208-258 | For every history of touches and releases, the capped list is a tail of the uncapped recency list and never exceeds the cap. |
| Lru.HeldIff | tinohelm/notifier/handlers.py:230-258 | A key survives if and only if it was touched, not released since, and at no point since had `cap` or more keys more recent than it. |
| Lru.HeldUnderLowPressure | tinohelm/notifier/handlers.py:257-258 | A key not released since its last touch is held while fewer than `cap` distinct other keys were touched after it. |
| Lru.HeldIffFewTouched | tinohelm/notifier/handlers.py:230-258 | Without releases that condition is exact. |
| OrderProgress.OrderProgressTracker.Observe | tinohelm/notifier/handlers.py:211-258 | The new dictionary is the old one with the event folded into its order's slot, that order moved to the end and the oldest evicted beyond the cap; bodies without an order id change nothing. |
| OrderProgress.OrderProgressTracker.Evict | tinohelm/notifier/handlers.py:256-258 | Popping from the front leaves exactly the most recent `cap` orders with their slots. |
| OrderProgress.OrderProgressTracker.Snapshot | tinohelm/notifier/handlers.py:260-261 | Returns the record of a held order, null otherwise. |
| OrderProgress.OrderProgressTracker.ForgetIfTerminal | tinohelm/notifier/handlers.py:263-283 | Removes exactly the event's order, if the event is terminal or is a fill that leaves no remainder; all else stays. |
| OrderProgress.Slot.Absorb | tinohelm/notifier/handlers.py:233-254 | One event updates the record's fields as the fold prescribes: first-seen side and type, total from `OrderInitialized`, quantity, count and notional from fills. |
| OrderProgress.ObservedWellFormed | tinohelm/notifier/handlers.py:211-258 | Observing keeps the key list free of duplicates and equal to the keys of the slots. |
| TrackerRuns.CappedAndOrdered | tinohelm/notifier/handlers.py:193-258 | After any run of observe and release calls the dictionary respects the cap and lists its orders by the position of their last event. |
| TrackerRuns.HeldExactly | tinohelm/notifier/handlers.py:193-283 | An order is held if and only if it is open (seen, not released since) and was never pushed `cap` deep. |
| TrackerRuns.HeldWhileRecent | tinohelm/notifier/handlers.py:193-283 | An open order is held while fewer than `cap` distinct other orders have been observed since its last event. |
| TrackerRuns.HeldExactlyWhileRecent | tinohelm/notifier/handlers.py:193-258 | In runs without releases an order is held if and only if it was observed and fewer than `cap` others were since. |
| TrackerRuns.SlotIsFold | tinohelm/notifier/handlers.py:211-254 | Every held slot equals the unbounded fold of its order's events from the call that created it, through which it was held ever since. |
| TrackerRuns.UnbrokenSlot | tinohelm/notifier/handlers.py:211-254 | A slot never lost up to a point is the fold of all its order's events up to that point. |
| OrderFold.FoldMeaning | tinohelm/notifier/handlers.py:117-167 | Closed form of the fold: filled is the sum of fill quantities, notional the sum of quantity times price over priced fills, count the number of fills, total that of the last `OrderInitialized` carrying one, side and type the first non-empty ones. |
| OrderFold.TifMeaning | tinohelm/notifier/handlers.py:240-246 | The time in force is that of the last `OrderInitialized` naming one, where side and type are the first seen. |
| OrderFold.VwapBetweenPrices | tinohelm/notifier/handlers.py:156-167 | With positive quantities and known prices the average times the quantity is the notional, and the average lies between any bounds on the fill prices. |
| OrderFold.VwapExactIff | tinohelm/notifier/handlers.py:247-254 | With positive quantities, some of them unpriced, the average shown is that of the priced fills if and only if every fill has a price or the notional is zero. |
| FillGate.ReleasedOnlyIfForwarded | tinohelm/notifier/handlers.py:263-283 | Every event that frees a slot passes the component, order, type and fill gates in the same tracker state. |
| FillGate.SlotLeftBehindIff | tinohelm/notifier/runner.py:514-546 | With a known total, a fill is forwarded and leaves its slot behind if and only if the remainder is positive and at most 1e-9. |
| FillGate.SlotIsLeftBehind | tinohelm/notifier/runner.py:514-546 | A two-event run that gets there: an order announced and then filled up to a remainder within the slack is forwarded and keeps its slot. |
| FillGate.FillPassesIff | tinohelm/notifier/runner.py:514-546 | On every run with a cap of at least 1, a fill passes the gates if and only if no event of its order since its slot was created told a total, or the fills among them come within 1e-9 of the last total told. |
| FillGate.UnknownTotalForwardsAll | tinohelm/notifier/runner.py:526-546 | On every run, every fill of an order of which no event tells a total is forwarded. |
| FillGate.FreedIff | tinohelm/notifier/handlers.py:263-283 | After every run, releasing on an event of a held order frees its slot if and only if the event is one of the four terminal ones, or a fill and the fills since the slot was created reach the last total told. |
| FillGate.FreesOnlyItsOwn | tinohelm/notifier/handlers.py:282-283 | Releasing on an event leaves the slots of all other orders as they were. |
| FillGate.ForwardedIff | tinohelm/notifier/runner.py:514-546 | A fill of an orderly order with an unbroken slot passes the gates if and only if it is the order's last fill and the fills add up to the total. |
| FillGate.ExactlyOneMessage | tinohelm/notifier/runner.py:514-546 | Over any interleaving, the calls that forward an `OrderFilled` of an orderly order are the last fill alone if the fills add up, with the full quantity, count and notional in the slot, and none otherwise. |
| FillGate.ExactlyOneMessageWhenQuiet | tinohelm/notifier/handlers.py:193-283 | The same from conditions on the event stream alone: no early terminal event and fewer than `cap` other orders between two events of the order. |
| FillGate.OrderlyAndQuiet | tinohelm/notifier/runner.py:514-546 | The conditions can be met: two lots announced and filled one by one are orderly and quiet, and the second fill alone is forwarded. |
| Routing.ResolveHandle | tinohelm/notifier/runner.py:211-247 | The search over the registry in any iteration order returns the same handle, given by the order-free specification. |
| Routing.ResolvesToLongest | tinohelm/notifier/runner.py:241-247 | The handle is the unique longest key that is a hyphen-separated suffix of the id, or the id itself when there is none. |
| Routing.ResolveIsIdempotent | tinohelm/notifier/runner.py:241-242 | Resolving a resolved handle changes nothing. |
| Routing.ResolveUndoesConstruction | tinohelm/config.py:382-388 | For a hyphen-free class name and a registered handle, resolving `Class-handle` gives the handle if and only if the built id is not itself a key. |
| Routing.VerdictOf | tinohelm/notifier/runner.py:181-208 | Commands are accepted from live exactly for ids registered as live and from sandbox exactly for all others; from logging they are refused as read-only, and any other refusal names the channel to use. |
| Routing.FanOutIsComplete | tinohelm/notifier/runner.py:284-308 | A fan-out lists each registered strategy of the channel's mode once, and from any other channel each registered strategy once. |
| Routing.LiveFanOutIsAccepted | tinohelm/notifier/runner.py:284-308 | The live fan-out is exactly the set of ids whose commands are accepted from the live channel. |
| Routing.SandboxFanOutWithinAccepted | tinohelm/notifier/runner.py:284-308 | Every id of the sandbox fan-out is accepted from sandbox; what else is accepted is exactly the unknown ids and those of unrecognised mode. |
| Routing.EventsFollowCommands | tinohelm/notifier/runner.py:250-281 | With distinct channels a scoped event goes to live (sandbox) if and only if commands for the resolved handle are accepted from live (sandbox). |
| Routing.NativeEventsFollowCommands | tinohelm/notifier/runner.py:181-281 | Native events of a handle and commands for it agree on live if and only if the built id is not a key of its own with a mode on the other side. |
| Intake.TopicGateMirrorsSubscriptions | tinohelm/notifier/runner.py:408-427 | The plain-text topic gate admits exactly the topics some in-process subscription pattern matches. |
| Intake.SameScope | tinohelm/notifier/runner.py:597-602 | A subscribed pattern and the topic it matches agree on being operational, so both paths choose the same channel. |
| Intake.Notifier.FillPasses | tinohelm/notifier/runner.py:514-546 | The gate on the live tracker decides as the specification on its contents does. |
| Intake.Notifier.Handle | tinohelm/notifier/runner.py:897-950 | The in-process handler observes first, then gates, routes and enqueues under the pattern; nothing else changes. |
| Intake.Notifier.ForwardStreamEntry | tinohelm/notifier/runner.py:656-712 | The stream forwarder does the same behind the topic gate and returns whether it enqueued. |
| Intake.PathsAgree | tinohelm/notifier/runner.py:579-712 | Fed the same happenings, each event on either path, with topics matching their patterns, two notifiers end in the same tracker state and registry and have sent the same bodies to the same channels in the same order. |
| Intake.SentFollowsOps | tinohelm/notifier/runner.py:689-712 | In any mixture of both paths and of happenings that raise after observing, the tracker is that of the calls made and the fills of an order among the messages sent are exactly those of the calls that pass the gates and did not raise. |
| Intake.OneMessagePerFilledOrder | tinohelm/notifier/runner.py:514-546 | End to end, over any mixture of both paths, raises included: the list of `OrderFilled` messages sent for an orderly, quiet order is its last fill alone if its fills add up to the total and handling that one did not raise, and empty otherwise. |
| Intake.EveryFillOfUnknownTotal | tinohelm/notifier/runner.py:514-546 | End to end: the `OrderFilled` messages sent for an order whose total nobody told are all of its fills, in order, less those whose handling raised. |
| Intake.EffectOf | tinohelm/notifier/runner.py:656-712 | What one happening does, for every event: it is observed if it arrives on a rendered topic, and sent, once, under its own topic or pattern and to the right channel, exactly if it is no boot or shutdown walk, mid-flight order event or position or account churn, and no fill short of a known total; a failing event is only observed. |
| Intake.EveryMessageRouted | tinohelm/notifier/runner.py:579-602 | Over every run each message belongs to an arrival; it went to logging if its topic or pattern is operational or its body names no strategy, and otherwise to the channel from which commands for the resolved handle were accepted under the registry of that moment. |
| Pipeline.ObservedAreConsumed | tinohelm/notifier/runner.py:758-808 | Over every run, with both paths, raises, releases and registry changes in between, the events of an order the tracker has observed, and which of them got as far as sending, are what its stream holds in (start, cursor], in order, less the entries whose handling raised before they were observed. |
| Pipeline.OutcomeOf | tinohelm/notifier/runner.py:789-808 | Handling one more entry takes it through the intake if it returns, only through the tracker if it raised after being observed, and leaves no trace if it raised before. |
| Pipeline.OneMessageFromLog | tinohelm/notifier/runner.py:656-808 | Over every run, the `OrderFilled` messages about an order as a function of the log: if what its stream holds of it in (start, cursor], less the entries lost to a raise, is orderly and the order is left alone until its last fill, exactly that last fill was sent if the fills add up and handling it did not raise, and none otherwise. |
| StreamLoop.DiscoverableIff | tinohelm/notifier/runner.py:613-633 | The key pattern matches exactly the aggregate stream keys of some trader id. |
| StreamLoop.DiscoverEventStreams | tinohelm/notifier/runner.py:613-633 | Discovery returns exactly the matching keys that are not to be skipped, as often as listed, in string order. |
| StreamLoop.StepKeepsInv | tinohelm/notifier/runner.py:758-808 | Every step of loop and environment, the raising ones included, keeps: attempted entries followed by unread ones are all entries after the start, and what is left of a batch is the beginning of what is unread. |
| StreamLoop.ExactlyOnce | tinohelm/notifier/runner.py:758-808 | In every reachable state the entries attempted from a watched stream are those with an id in (start, cursor], each once and in order, and no skipped stream is watched. |
| StreamLoop.WatchStartsAtTail | tinohelm/notifier/runner.py:636-653 | The only step that starts watching a stream sets its start and cursor to the id of the last entry written by then, or to 0 if there is none. |
| StreamLoop.OnlyWrittenSince | tinohelm/notifier/runner.py:636-653 | At every later point of the run, what was attempted from the stream followed by what is unread is exactly what was written after it was first watched; no older entry is ever attempted. |
| StreamLoop.DiscoveredAreWatched | tinohelm/notifier/runner.py:764-776 | Once the watch steps after a discovery are through, every aggregate stream that then existed and is not consumed elsewhere is watched, whatever the environment did meanwhile. |
| StreamLoop.HandedOnce | tinohelm/notifier/runner.py:789-801 | No entry is handed to the forwarder by two steps of a run, raises included. |
| StreamLoop.NeverReset | tinohelm/notifier/runner.py:766-776 | Between any two points of a run a watched stream keeps its starting cursor, its cursor does not go back and its attempts only grow. |
| StreamLoop.RunIsStretch | tinohelm/notifier/runner.py:758-808 | Every legal run is a stretch of enabled steps from a state satisfying the invariant, which the next two results are about. |
| StreamLoop.RestIsReread | tinohelm/notifier/runner.py:789-808 | After a raise, however many appends, creations, trims, discoveries and failures come before it, the next read returns on every watched stream the abandoned rest of the batch first. |
| StreamLoop.ReadThenHandleAll | tinohelm/notifier/runner.py:786-801 | A batch handled without a raise, with entries appended, streams created and consumed ones trimmed in between, leaves nothing unattempted that was written before the read. |
| StreamLoop.StepsAreAttempts | tinohelm/notifier/runner.py:789-801 | The handling steps on a batch amount to the response loop on a prefix of it; a raise changes only where the loop continues. |
| StreamLoop.DiscoveryCompletes | tinohelm/notifier/runner.py:764-776 | After a discovery, one step per found key and one more, all found keys are watched and the loop goes on to read. |
| StreamLoop.BatchCompletes | tinohelm/notifier/runner.py:785-801 | A batch handled without a raise is attempted completely and in order, and the loop is back at its top. |
| StreamLoop.EventStreamLoop.WatchKey | tinohelm/notifier/runner.py:769-776 | A newly discovered stream starts after the given tail; a watched one is left as it is. |
| StreamLoop.EventStreamLoop.StreamTailCursor | tinohelm/notifier/runner.py:636-653 | The id of the newest entry, or 0. |
| StreamLoop.EventStreamLoop.WatchFound | tinohelm/notifier/runner.py:769-776 | After the loop over the found keys exactly these are watched in addition, each from the id of its newest entry or 0, and older cursors are unchanged. |
| StreamLoop.EventStreamLoop.HandleResponse | tinohelm/notifier/runner.py:789-801 | The response loop moves each cursor before handling the entry and stops at the first entry whose handling raises. |
| Announcements.LoadAnnounceHistory | tinohelm/notifier/runner.py:328-350 | Replay registers every well-formed entry in order and returns the id of the last entry, well formed or not. |
| Announcements.ReadNewAnnounces | tinohelm/notifier/runner.py:68-110 | Returns the well-formed entries in order and advances the cursor past every entry read. |
| Announcements.DetectsAll | tinohelm/notifier/runner.py:136-174 | A drift is reported if and only if some entry disagrees with the expected protocol or version and has that strategy, protocol and version. |
| Announcements.Autodiscover.Tick | tinohelm/notifier/runner.py:1575-1606 | One pass registers what was read, advances the cursor and enqueues the drifts not warned about before, stopping at the first whose enqueueing raises. |
| Announcements.Autodiscover.ApplyFallbackScan | tinohelm/notifier/runner.py:311-325 | The scan adds the unknown ids as sandbox and changes nothing else. |
| Announcements.NoGapNoRepeat | tinohelm/notifier/runner.py:328-350 | Over every run the processed entries, malformed ones included, are a prefix of the stream, the next read returns exactly the rest, and after it all are processed. |
| Announcements.RegistryIsLastAnnounced | tinohelm/notifier/runner.py:1571-1612 | After any run of reads, scans and failures each announced id has the mode of its last processed announce, and every other registered id is sandbox. |
| Announcements.DriftWarnedOnce | tinohelm/notifier/runner.py:1582-1606 | Over every run, passes that raise part-way included, no warning is enqueued twice, and the drifts enqueued or given up are exactly those for which some complete announce processed since startup has that strategy, protocol and version, one of the two not being the expected one. |
| Announcements.DriftWarnedExactly | tinohelm/notifier/runner.py:1582-1606 | Without such a raise the warnings enqueued are exactly those drifts, each once. |
| Announcements.ReadSendsIff | tinohelm/notifier/runner.py:1582-1606 | A complete read sends a drift if and only if it was sent before or is among the drifts read and not yet marked as warned. |
| Announcements.RaiseSticks | tinohelm/notifier/runner.py:1597-1605 | A raising pass sends the new drifts before the raising one, gives up on that one and those behind it, and marks without sending exactly the raising one. |
| Announcements.StuckForGood | tinohelm/notifier/runner.py:1572-1605 | A drift marked as warned and not sent is never sent in the rest of the run. |
| Announcements.ScanRecoversId | tinohelm/notifier/runner.py:322-325 | The scan recovers an id from its control key if and only if the id has no colon. |
| Announcements.ScanOnlyAdds | tinohelm/notifier/runner.py:322-325 | A scan keeps every known mode and adds exactly the ids named by the keys. |
| Announcements.ScanRegisters | tinohelm/notifier/runner.py:1607-1610 | A fallback scan in a run keeps every registered mode, registers exactly the other ids named by the keys, as sandbox, and touches neither cursor nor warnings. |
| Forwarder.DiscordForwarder.WatchReport | tinohelm/notifier/runner.py:1017-1030 | A fresh pending future is appended to its key's wait list; nothing else changes. |
| Forwarder.DiscordForwarder.DropReportListener | tinohelm/notifier/runner.py:1032-1053 | Removes one occurrence of the future and the key when its list becomes empty; unknown futures change nothing. |
| Forwarder.DiscordForwarder.DispatchReportListeners | tinohelm/notifier/runner.py:1055-1069 | Un-registers the envelope's key and resolves exactly the pending futures that were listed there. |
| Forwarder.DiscordForwarder.Enqueue | tinohelm/notifier/runner.py:1071-1102 | On an open loop a report's dispatch is queued, and the send is skipped if and only if a listener of its key is registered now; a closed loop drops the event. |
| Forwarder.DiscordForwarder.RunNextDeferred | tinohelm/notifier/runner.py:1096 | The oldest queued dispatch runs on its envelope, once, and leaves the queue. |
| Forwarder.StepKeepsInv | tinohelm/notifier/runner.py:1017-1102 | Every atomic step keeps: no empty list, each future listed at most once, only under its key and never once resolved or dropped, resolved only by a report of its key, and listed while pending and not dropped. |
| Forwarder.ProtocolSafety | tinohelm/notifier/runner.py:1017-1102 | That invariant holds after every interleaving of watch, drop, cancel, enqueue, dispatch and close. |
| Forwarder.SettledForGood | tinohelm/notifier/runner.py:1067-1069 | A resolved or cancelled future keeps its outcome for ever, futures keep their keys, and dispatches run in the order they were queued. |
| Forwarder.DispatchMovesHead | tinohelm/notifier/runner.py:1055-1069 | On an open loop a dispatch always takes the oldest envelope off the queue, even one without a strategy or a listener, and sends nothing. |
| Forwarder.ClosedDrops | tinohelm/notifier/runner.py:1077-1079 | On a closed loop an event is neither queued nor sent. |
| Forwarder.SwallowedIff | tinohelm/notifier/runner.py:1093-1102 | On an open loop an envelope skips the send if and only if it is a report and some future is listed under its key; otherwise it is sent exactly once. |
| Forwarder.SwallowAccountability | tinohelm/notifier/runner.py:1055-1102 | Once a report's own dispatch has run, whatever came in between, every future of its key that existed at enqueue time is done or dropped; futures keep keys and outcomes meanwhile. |
| Forwarder.DispatchReaches | tinohelm/notifier/runner.py:1067-1069 | A dispatch resolves a future with its envelope if and only if that future is pending and listed under the key at that time. |
| Forwarder.FateOfWaiting | tinohelm/notifier/runner.py:1055-1102 | At every moment of every run a waiting future that nobody cancelled or dropped waits until the first queued envelope of its key has had its turn, and is resolved with that one from then on. |
| Forwarder.DeliveredIff | tinohelm/notifier/runner.py:1093-1098 | Once a report's own dispatch has run, whatever came in between, a future that was waiting as it was enqueued is resolved with it if and only if the report was the first of its key in the queue and nobody cancelled or dropped the future. |
| Forwarder.LeftAloneIsKept | tinohelm/notifier/runner.py:1032-1053 | A run without a cancellation or drop of that future leaves it neither cancelled nor dropped. |
| Forwarder.SecondReportLost | tinohelm/notifier/runner.py:1093-1098 | A report that finds another of its key queued before it, in any state with somebody waiting, is not sent and never resolves a future waiting then, whatever steps follow. |
| Forwarder.ReportIsLost | tinohelm/notifier/runner.py:1093-1098 | From the empty forwarder: one listener and two reports before the first dispatch end with both reports dispatched, none sent, and the second held by no future. |
| Forwarder.PatternNeverOnDemand | tinohelm/notifier/runner.py:904 | An envelope of the in-process handler, which carries a subscription pattern as its topic, is always sent and never queued for dispatch, so it satisfies no waiting command. |
| ReportCommand.OpenRequests | tinohelm/notifier/runner.py:1235 | One new future per target, registered under the report topic, before anything is published. |
| ReportCommand.AbandonRequests | tinohelm/notifier/runner.py:1254-1257 | Each request is cancelled if still pending and then un-registered. |
| ReportCommand.SettleReplies | tinohelm/notifier/runner.py:1259-1278 | The replied and missing lists split the requests by outcome, and every reply is enqueued for the command's channel. |
| ReportCommand.StepKeepsSysInv | tinohelm/notifier/runner.py:1233-1278 | Starting, completing, timing out and cleaning up commands, with reports and dispatches in between, keep every command's futures its own and its receipt right. |
| ReportCommand.FinishedLeavesNothing | tinohelm/notifier/runner.py:1251-1257 | Once a command has finished, by reply or by timeout, none of its futures is in the listener table, then or later. |
| ReportCommand.OthersUndisturbed | tinohelm/notifier/runner.py:1251-1278 | No step of one command removes or settles a future of another. |
| ReportCommand.ReceiptPartitionsTargets | tinohelm/notifier/runner.py:1259-1278 | The replied and missing lists together are the targets, each once, and a target is listed as replied if and only if its future got a report. |
| ReportCommand.ReceiptKeepsOrder | tinohelm/notifier/runner.py:1259-1265 | The replied and missing lists keep the order of the targets. |
| ReportCommand.RepostIff | tinohelm/notifier/runner.py:1266-1278 | The replies posted in the command's channel are exactly those whose key has no listener at that moment, in request order; all of them are queued for dispatch. |
| ReportCommand.EveryFinishPosts | tinohelm/notifier/runner.py:1246-1278 | Over every run, the step that finishes a command, by completion or after its timeout, posts in its channel and in request order exactly the reports its futures hold whose key nobody is waiting for by then, and queues all of them for dispatch. |
| ReportCommand.BeginAsks | tinohelm/notifier/runner.py:1233-1235 | A command that begins has one pending future listed per target, in target order, under its topic, and keeps its channel. |
| ReportCommand.ReportIsEnqueued | tinohelm/notifier/runner.py:1071-1102 | A report arriving between commands goes to its own channel unless somebody waits for its key, is queued for dispatch, and changes no command. |
| ReportCommand.DispatchAnswers | tinohelm/notifier/runner.py:1055-1069 | A dispatch answers every request, of whatever command, that is still waiting for its key. |
| ReportCommand.TimeoutCancels | tinohelm/notifier/runner.py:1241-1250 | A timeout cancels the command's pending futures, keeps what the others hold, and changes neither the table nor what was sent. |
| ReportCommand.RunRefinesForwarder | tinohelm/notifier/runner.py:1184-1285 | Whatever a run of commands does to the forwarder is a run of the forwarder's own steps, so its theorems apply. |
| ReportCommand.RepostIsSwallowed | tinohelm/notifier/runner.py:1266-1278 | A run in which that matters: a second operator asks the same strategy before the first one's reply is re-posted; the first command counts it as replied, nothing is posted, and the second is answered with the first one's report. |
| Recovery.DeserializeBalances | tinohelm/sandbox_recovery.py:125-145 | Missing, empty or partly unreadable objects give no totals; otherwise all amounts, filed under their own currency. |
| Recovery.SnapshotRoundTripIff | tinohelm/sandbox_recovery.py:114-145 | With a lossless text form, decoding a serialized snapshot gives the totals back, in order, if and only if no two currencies share a code. |
| Recovery.SerializedField | tinohelm/sandbox_recovery.py:114-122 | With distinct codes, each currency's amount is stored in its text form under its code. |
| Recovery.DecodesToNothingIff | tinohelm/sandbox_recovery.py:134-145 | A stored object decodes to nothing if and only if it is missing, empty or has at least one unreadable value. |
| Recovery.RestoredKeepsLast | tinohelm/sandbox_recovery.py:136-145 | A decoded object is never partial: the last amount of each of its currencies is in the result. |
| Recovery.BalanceKeyInjective | tinohelm/sandbox_recovery.py:79-85 | With colon-free trader ids and venues, equal keys come from equal prefix, pod and venue. |
| Recovery.CollidesIff | tinohelm/sandbox_recovery.py:79-85 | Some other trader id or venue has the same key if and only if the trader id or the venue contains a colon. |
| Recovery.KeyNamesItsParts | tinohelm/sandbox_recovery.py:79-85 | With colon-free parts, the text after the last colon of a key is the venue, and of what precedes it the trader id. |
| Recovery.BuildAccountBalances | tinohelm/sandbox_recovery.py:91-111 | One balance per currency with that total, nothing locked, free equal to total, so total minus locked equals free. |
| Recovery.TotalsOfAccount | tinohelm/sandbox_recovery.py:148-158 | A snapshot holds exactly the account's total of each currency. |
| Recovery.Replayed | tinohelm/sandbox_recovery.py:196-246 | After a replay a currency in the snapshot has the replayed balance and every other currency keeps its own. |
| Recovery.RestoresExactlyIff | tinohelm/sandbox_recovery.py:225-246 | The recovered totals are the snapshot's if and only if every starting currency is in the snapshot; replayed balances are unlocked and consistent; without a snapshot the starting account is untouched. |
| SandboxPod.Pod.Pairs | tinohelm/sandbox_recovery.py:175-193 | The venues of the clients with a simulated exchange, in order; none without an execution engine. |
| SandboxPod.SandboxClientsOnly | tinohelm/sandbox_recovery.py:175-193 | The venues used are exactly those of the clients with a simulated exchange, without repetition if and only if no two such clients share a venue. |
| SandboxPod.Pod.RecoverOnStart | tinohelm/sandbox_recovery.py:196-260 | All accounts and matching engines afterwards, as functions of those before and of Redis. |
| SandboxPod.Pod.SnapshotOnStop | tinohelm/sandbox_recovery.py:263-306 | All of Redis afterwards, as a function of Redis before and the pod's accounts. |
| SandboxPod.OpenOrdersToRehydrate | tinohelm/sandbox_recovery.py:161-169 | Keeps exactly the orders that are not emulated (as a set). |
| SandboxPod.RehydratesInOrder | tinohelm/sandbox_recovery.py:161-169 | The orders kept are those at exactly the positions that are not emulated, in order and with their repetitions. |
| SandboxPod.RecoveredAccount | tinohelm/sandbox_recovery.py:225-246 | Recovery touches exactly the accounts of sandbox venues with a usable snapshot, replaying it over each. |
| SandboxPod.TargetIsStored | tinohelm/sandbox_recovery.py:225-227 | What recovery uses for a venue is the object stored under the key of its own pod and that venue, decoded as a whole. |
| SandboxPod.SnapshotWrites | tinohelm/sandbox_recovery.py:285-302 | Under the key of a venue, a snapshot writes the serialized totals if it is one of the pod's own sandbox venues with something to save, and leaves what was there otherwise. |
| SandboxPod.SnapshotLeaves | tinohelm/sandbox_recovery.py:285-302 | A snapshot leaves every key alone that belongs to none of the pod's sandbox venues. |
| SandboxPod.RehydratedOnce | tinohelm/sandbox_recovery.py:248-260 | Each existing engine of a sandbox venue gets its non-emulated open orders once and in order; other engines get nothing and none is created. |
| SandboxPod.DueMeans | tinohelm/sandbox_recovery.py:248-260 | The orders an engine is due are the open ones that are not emulated and of its instrument, each as often as it is open and with its own account. |
| RecoveryRuns.StepKeepsInv | tinohelm/sandbox_recovery.py:196-306 | Booting, trading, stopping and losing snapshots, of this pod or another, keep: Redis holds what the pod last saved for the venue, and accounts stay sound and cover their starting currencies. |
| RecoveryRuns.OutsideSteps | tinohelm/sandbox_recovery.py:263-306 | In the runs, a trade changes exactly one account's totals and a foreign write exactly one key. |
| RecoveryRuns.StoreHoldsLastSaved | tinohelm/sandbox_recovery.py:79-85 | Over every run Redis holds what the pod last saved for the venue, unless a writer outside the deployment lost it: no other pod or venue replaces it. |
| RecoveryRuns.RestartIdentity | tinohelm/sandbox_recovery.py:196-306 | After every boot in every run the account has exactly the totals last saved, all of it free, or exactly its starting balances when nothing usable is saved. |
| RecoveryRuns.StopThenBootKeepsMoney | tinohelm/sandbox_recovery.py:196-306 | Stop, then any steps that neither save for the pod nor lose its snapshot, then boot: the totals are those it stopped with if and only if it did not stop with an empty account while an older snapshot was in place. |
| Table.MeasureColumns | tinohelm/notifier/handlers.py:985-989 | The width loop computes each column's width over header and cells; surplus cells are ignored. |
| Table.WidthCounts | tinohelm/notifier/handlers.py:967-973 | The width of a text is its length plus the number of its wide characters. |
| Table.ColumnIsWidest | tinohelm/notifier/handlers.py:985-989 | Each column is exactly as wide as the widest of its header and cells. |
| Table.MarkdownTable | tinohelm/notifier/handlers.py:981-1001 | Fails if and only if some row is longer than the header; otherwise the lines are header, rules and rows, each padded to the column widths. |
| Table.WidthOfPad | tinohelm/notifier/handlers.py:976-978 | Padding reaches the requested display width exactly, or leaves a wider text alone. |
| Table.Aligned | tinohelm/notifier/handlers.py:981-1001 | In every line each cell starts at its column's display offset, and a line is as wide as the table if and only if it has a cell for every column (or is an empty row under a single zero-width column). |

## Left out

* Discord client, slash-command registration, embed rendering, 中文 labels and number formatting: user interface.
* Redis, asyncio and threads themselves: streams are sequences of ids, futures are numbered entries of a table rather than objects, the loop is a sequence of atomic steps, and blocking, timing and the rediscovery interval are not modelled.
* Decoding (msgpack, JSON, previews of undecodable payloads): a body is a decoded record or "anything else"; text fields hold strings, so non-string ids, unhashable values and type errors inside a handler are not modelled, except as a raise in the stream loop.
* Binary floating point in quantities and prices: reals are used, so rounding, NaN and infinities are not modelled.
* A negative cap of the tracker, on which the eviction loop would raise.
* Trimming of unread entries: streams are trimmed only up to the cursor of a watched stream, and ids never repeat.
* The loop's idle wait without streams, and wildcards other than `*`.
* A raise in the middle of `observe` itself: handling an event raises before the tracker observes it, or after it has.
* The body of `_send` beyond the release of the tracker slot (rate limit, fetching the channel, failed sends); release is a separate step that may come at any time.
* Publishing in a report command: a failure there leaves its futures registered, and the model has publishing succeed. Cancellation of the command's own task is not modelled either.
* The autodiscover configuration without a forwarder, which warns about nothing.
* The gates shared by both intake paths are one method here (`Intake.Notifier.GatesPass`), where the source repeats them.
* Account replay is a per-currency replacement of balances, as the source documents; margins, the timestamp and the `reported` flag of the replayed event are not modelled, nor is what a matching engine does with a re-hydrated order, such as locking margin.
* One exchange client per venue is assumed for the pod results, and writers outside the deployment are assumed to put nothing usable under a snapshot key; account text conversion is a pair of functions assumed to be inverse.
* Undecodable bytes under a snapshot key, on which the utf-8 decode raises outside the handler.
* `_daily_summary_loop`, `load_trader_ids` and `build_external_streams`; `config.py`, `strategy_runner.py`, `cli.py`, `bridge_actor.py`, `reporting_actor.py` and `sandbox_book_feeder.py`: assembly and one-branch rules.
* `OrderProgress.pct`, read only by the embed text.
