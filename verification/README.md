# AgentLight, modelled and proved

AgentLight shows, as one light, what a developer's coding agents are doing. A producer
plugin watches an editor session, posts events to a push store, an engine merges the
stores into a list of rows and a colour, and a desktop elsewhere may read a hub that
does the same. This project models that chain in Dafny, component by component, and
proves what it is for: the light tells the truth about the sessions the store holds,
nothing removed comes back, a session reported as needing help is shown on every
desktop, and a lost message is repaired by the next heartbeat. Beside the chain stand
the program's self-contained algorithms.

`dafny verify dfyconfig.toml` checks everything.

## How it is built

- Code that is pure in the program is a function here; code that updates state in
  place is a class or a method with a loop, proved equal to a specification function.
  What the program promises is then proved of those functions, over all inputs or all
  runs.
- `Prelude`, `StableSort`, `Text`, `Domain`: lists, the stable sort, text, and the
  normalized model. Trimming, lower-casing, file names and RFC 3339 text are fields of a
  `Library` value; `Lawful` lists the few facts used of them (a printed time parses
  back, the empty text is no time, a blank is white space).
- `PushModel`, `PushStore`, `PushFacts`, `PushRows`, `PushSignals`, `PushHealth`,
  `PushRestart`, `PushRuns`: the push store, what it holds and shows, its signals and
  health, its durable file, and whole runs with restarts and failed writes.
- `PluginModel`, `Plugin`, `PluginRuns`, `PluginEvents`: the V2 opencode plugin, and what
  each event does by its name; `Resync` composes it with the store over an unreliable
  link.
- `EngineModel`, `Engine`, `Rendered`, `StateFile`, `FileRows`, `Staleness`, `Legacy`,
  `Relay`, `RelayDone`, `Notify`, `ClearModel`, `ClearDone`: the policy engine and what a
  snapshot shows, the state file it can read, its rows and its agreement with the push
  store, the older builder it must equal, the hub relay, notifications, and clearing
  finished sessions. `Pipeline` joins all of it, from the plugin to a remote desktop's
  light.
- `Wav`, `WavFiles`, `Sse`, `SseCuts`, `Base64Url`, `Query`, `Window`: the WAV scaler and
  the files it is for, the event-stream reader, the two text codings and the placing of
  the desktop window.

The specification functions are stated once more from the outside, where a reader would
otherwise have to trust them: `PluginEvents` by the literal names of the events,
`Rendered` by the fields of a snapshot, `FileRows` by the texts of a state file,
`PushRows` by the events of a batch, `WavFiles` by printed RIFF files, and the last part
of `Window` by where a window ends up.

The iteration order of a hash map is a parameter `order` constrained by `Enumerates`, so
each result holds for every order. Time is an integer number of nanoseconds. Each public
method and each plugin event is one atomic step.

## Where the code and its promise part ways

Each of these is proved with the exact condition; the model follows the code.

- "Clear done" on a push store reports how many sessions it removed, and does what
  removing them one by one does, exactly when no stored session is stale at the sampled
  clock: stale ones are rendered as done and counted, but the bulk command leaves them
  (`ClearDone.BulkCountExact`, `ClearDone.BulkMatchesRemovals`,
  `ClearDone.StaleSessionSurvivesBulk`).
- A desktop shows the same counts over a push store as over a state file with the same
  sessions exactly when it hides none of the push store's: only the push store knows
  which sessions are subagents, so with `show_subagents` off, as it is by default, a
  desktop leaves out those that do not need help over the one and counts them over the
  other. Red is the same over both in any case (`Staleness.RenderedAgree`).
- A restart trims names again and forgets that a store emptied of its sessions had heard
  from a producer; everything else is restored. Sessions survive unchanged exactly when
  stored names are trimmed, that is, when the event had a usable name or the first eight
  characters of its id are not empty and do not end in white space; the health does
  exactly when the store is silent anyway, or had sessions if it had heard from a
  producer (`PushRestart.RestartTransparent`, `PushRestart.OneEventRestart`,
  `PushRestart.LossyEvent`, `PushHealth.HealthAfterRestart`).
- With `done` among the triggers, the notification stream is independent of
  `show_subagents` exactly when no publish shows a finished subagent that the next one
  shows as a finished main session (`Notify.StreamIgnoresSubagents`,
  `Notify.PromotionDiffers`).
- Behind a hub that keeps five finished rows, a desktop's counts are right exactly when
  it would hide every finished session past the fifth, and its rows exactly when it
  would, or when it keeps five itself and hides none of the hub's five
  (`RelayDone.RemoteDoneCount`, `RelayDone.RemoteShowsSameDone`).
- A question to the user shows red exactly while no activity was reported on the session
  since the last question, idle event or error: a tool call turns the light green
  although the user is still being asked (`PluginRuns.AskedColour`,
  `PluginRuns.ToolHidesQuestion`).
- A batch signals a change exactly when the sessions deviate at some point of it. With
  each session listed at most once that is a real change; two events that go there and
  back signal for nothing (`PushSignals.FlagExactly`, `PushSignals.ThereAndBack`).
- A state file behind a byte order mark is shown but cannot be cleared
  (`ClearDone.ClearFileBlocked`).
- An event-stream payload loses its leading line feeds and the CRs at the end of its
  lines (`Sse.FrameRoundTrip`, `Sse.LeadingLfDropped`). A connection cut anywhere
  delivers a prefix of the stream's frames exactly when every line with content that
  starts with CR inside an open frame finds that frame complete, and what was delivered
  is never taken back by more input exactly when there is no such line
  (`SseCuts.CutDeliversPrefix`, `SseCuts.FramesOnlyGrow`, `SseCuts.CutCanMislead`).
- A token pasted into a query unencoded survives exactly when it has no `+`, no escape
  and no `&`; a bare `token` key hides a later one (`Query.RawTokenKept`,
  `Query.BareTokenEndsSearch`).
- Dragging the expanded window is honoured on collapse exactly when no later view change
  had to pull the window back inside its work area (`Window.DragOutcome`).

## Model

| member | source | states |
|---|---|---|
| `Domain.StalenessAgrees` | crates/agentlight-core/src/state.rs:219-230 | The file reader's truncated-hours test and the push store's cutoff test accept the same times at every clock, and go on doing so as time passes |
| `Text.TrimExactly` | crates/agentlight-source-events/src/source.rs:451-493 | Trimming cuts white space off both ends, all of it and nothing else |
| `Staleness.SameStatus` | crates/agentlight-core/src/state.rs:219-230 | Session by session a state file and a push store that hold the same id, status and time show the same status at every clock, and once shown as done it stays so |
| `Staleness.SourcesAgree` | crates/agentlight-source-events/src/source.rs:406-431 | So the two sources' sessions have the same counts and light, whatever order the file's map is walked in |
| `Staleness.RenderedAgree` | crates/agentlight-core/src/engine.rs:320-399 | Rendered by a desktop of any configuration the two have the same counts if and only if no session of the push store is hidden, then also the same light, and red over one if and only if over the other in any case |
| `PushModel.NormalizeNormal` | crates/agentlight-source-events/src/source.rs:451-493 | Every stored session has the normal form: keyed under its id, non-blank name, trimmed fields, matching badge and done flag |
| `PushModel.SaveAndReload` | crates/agentlight-source-events/src/source.rs:502-515 | Saving a normal session as an event and normalizing it again gives the session back with its name trimmed once more |
| `PushModel.NameKept` | crates/agentlight-source-events/src/source.rs:451-458 | The stored name is already trimmed exactly when the event had a usable name or the id gives a fallback not ending in white space |
| `PushStore.EventPushSource.constructor` | crates/agentlight-source-events/src/source.rs:79-101 | A new source is exactly what its durable file loads to, or empty |
| `PushStore.EventPushSource.LoadStore` | crates/agentlight-source-events/src/source.rs:303-336 | Loading fills sessions, owners, the newest 512 tombstones, the ingest time and the seen flag as the specification says, for a missing, garbled or saved file |
| `PushStore.EventPushSource.Persist` | crates/agentlight-source-events/src/source.rs:340-371 | The file holds the canonical store of the state whatever order the map is walked in, or is unchanged if it cannot be written |
| `PushStore.EventPushSource.ApplyUpserts` | crates/agentlight-source-events/src/source.rs:113-151 | An upsert batch has the specified effect on all parts of the state, signals at most once, and exactly when its change flag is raised, and persists |
| `PushStore.EventPushSource.ApplySnapshotBatch` | crates/agentlight-source-events/src/source.rs:159-222 | A snapshot batch is filtered by tombstones, prunes its producer's missing sessions, upserts the rest, signals exactly when its change flag is raised, and persists |
| `PushSignals.FlagExactly` | crates/agentlight-source-events/src/source.rs:113-151 | The flag of an upsert batch is raised if and only if the sessions deviate from what they were at some point of the batch |
| `PushSignals.UpsertSignalExact` | crates/agentlight-source-events/src/source.rs:113-151 | A changed session is always signalled, and if no session is reported twice a signal means a changed session |
| `PushSignals.ThereAndBack` | crates/agentlight-source-events/src/source.rs:126-132 | Two events for one session that go there and back signal although nothing changed |
| `PushSignals.SnapshotFlagExactly` | crates/agentlight-source-events/src/source.rs:171-222 | The flag of a snapshot is raised if and only if the prune drops a session or the upserts deviate from what it left |
| `PushSignals.SnapshotSignalExact` | crates/agentlight-source-events/src/source.rs:159-222 | The same two guarantees for snapshots |
| `PushStore.EventPushSource.RemoveSession` | crates/agentlight-source-events/src/source.rs:226-236 | Removal reports whether the session existed, forgets it and its owner and records the tombstone |
| `PushStore.EventPushSource.ClearDoneSessions` | crates/agentlight-source-events/src/source.rs:238-263 | The bulk clear drops exactly the stored done sessions, tombstones them and returns their number |
| `PushStore.EventPushSource.Snapshot` | crates/agentlight-source-events/src/source.rs:406-431 | What the engine reads: the stored sessions sorted by id, stale ones as done, under the store's health, the store itself unchanged |
| `PushStore.EventPushSource.HealthNow` | crates/agentlight-source-events/src/source.rs:373-391 | The store is unreadable past its silence window, otherwise ready once it has heard from a producer, otherwise missing |
| `PushHealth.IngestMakesReady` | crates/agentlight-source-events/src/source.rs:373-391 | From any state, after a batch of either mode with an event and any removals and clears since, the store is ready if and only if its window has not passed |
| `PushHealth.HealthOfRun` | crates/agentlight-source-events/src/source.rs:373-391 | Over any run without a restart the store is unreadable, naming the last batch, when that is longer ago than the window, else ready if any batch held an event, else missing |
| `PushHealth.HealthAfterRestart` | crates/agentlight-source-events/src/source.rs:320-322 | A restart keeps the health if and only if the store is silent anyway, or had sessions exactly if it had heard from a producer |
| `PushFacts.UpsertAllAt` | crates/agentlight-source-events/src/source.rs:113-151 | After a batch each id holds its last event normalized, with that event's producer; other ids are untouched |
| `PushFacts.SnapshotAt` | crates/agentlight-source-events/src/source.rs:159-214 | After a snapshot each id holds its last admitted event, or survives because the batch names no producer or its owner is another |
| `PushRows.EventStored` | crates/agentlight-source-events/src/source.rs:451-493 | The stored row says what the event says: trimmed texts, blanks as missing, the start of the id for a missing name, the parsed time |
| `PushRows.UpsertMeaning` | crates/agentlight-source-events/src/source.rs:113-151 | After an upsert batch each session is as the last event on it says, whatever was removed; the others, and their tombstones, are as they were |
| `PushRows.SnapshotMeaning` | crates/agentlight-source-events/src/source.rs:159-222 | After a snapshot the removed stay removed, the listed are as the last event on them says, and an unlisted live session goes if and only if the first producer the batch names owns it |
| `PushRows.ViewExactly` | crates/agentlight-source-events/src/source.rs:406-431 | A read shows every live session once under ascending ids, as stored except that a session a day old is done |
| `PushRows.LoadExactly` | crates/agentlight-source-events/src/source.rs:303-336 | Whatever the file holds, loading gives each session as the last event on it says, owned by the last producer named for it, and the newest 512 tombstones |
| `PushFacts.EvictionExact` | crates/agentlight-source-events/src/source.rs:282-292 | Recording a tombstone evicts another one exactly when 511 newer ones already stand behind it |
| `PushFacts.ApplyInv` | crates/agentlight-source-events/src/source.rs:113-151 | An upsert keeps: owners are live, tombstones duplicate-free, at most 512 and disjoint from live ids, sessions normal |
| `PushFacts.SnapshotInv` | crates/agentlight-source-events/src/source.rs:159-214 | So does a snapshot |
| `PushFacts.ClearDoneInv` | crates/agentlight-source-events/src/source.rs:238-261 | So does the bulk clear |
| `PushRestart.RestartRestores` | crates/agentlight-source-events/src/source.rs:303-371 | Loading what was persisted restores every session up to its name, owners, tombstones in order and the ingest time |
| `PushRestart.RestartTransparent` | crates/agentlight-source-events/src/source.rs:303-371 | A restart restores all sessions exactly if and only if every stored name is trimmed; owners, tombstones and ingest time always |
| `PushRestart.EventSurvivesRestart` | crates/agentlight-source-events/src/source.rs:451-458 | The same condition in terms of the event as posted |
| `PushRestart.OneEventRestart` | crates/agentlight-source-events/src/source.rs:303-371 | A hub that received one event is restored if and only if the event meets it |
| `PushRestart.LossyEvent` | crates/agentlight-source-events/src/source.rs:451-458 | A concrete event that is not restored: no name, and an id whose first eight characters end in a blank |
| `PushRestart.RestartSettles` | crates/agentlight-source-events/src/source.rs:303-371 | After one restart a second one changes nothing |
| `PushRestart.PersistAfterRestart` | crates/agentlight-source-events/src/source.rs:340-371 | Persisting after a restart writes the same store if and only if every stored name was trimmed |
| `PushRuns.ReachableInv` | crates/agentlight-source-events/src/source.rs:113-371 | Every state reached by any run of batches, removals, clears, restarts and failed writes keeps the store's invariants, in memory and on disk |
| `PushRuns.RemovalBuries` | crates/agentlight-source-events/src/source.rs:226-261 | A removal or clear that drops a live id leaves it absent, and leaves its tombstone if and only if fewer than 512 are recorded after it in the same step, with exactly those behind it |
| `PushRuns.NoResurrection` | crates/agentlight-source-events/src/source.rs:265-292 | A removed id stays absent over any run of snapshots, removals, clears and restarts without an upsert of it, while fewer than 512 tombstones are recorded after it |
| `PushRuns.ResurrectedExactly` | crates/agentlight-source-events/src/source.rs:171-174 | A snapshot brings an absent id back if and only if it lists it and no tombstone stands |
| `PushRuns.Isolation` | crates/agentlight-source-events/src/source.rs:167-213 | No run of other producers' batches about other ids changes a session, its status or its owner |
| `PushRuns.ProducersDoNotInterfere` | crates/agentlight-source-events/src/source.rs:167-213 | With disjoint ids, whatever one producer sends leaves everything of another as it was |
| `PushRuns.AnonymousNeverPrunes` | crates/agentlight-source-events/src/source.rs:176-196 | A snapshot that names no producer removes no session |
| `Plugin.AgentLightPlugin.HandleEvent` | plugins/opencode/agentlight-v2.js:422-531 | The switch moves the plugin's maps and waiting set to the specified state, whose meaning the next rows state by event name |
| `PluginEvents.ErrorMeaning` | plugins/opencode/agentlight-v2.js:466-479 | In every state `session.error` and `session.execution.failed` record needs-help for the session they name, leave that upsert pending, and change nothing else |
| `PluginEvents.ActivityMeaning` | plugins/opencode/agentlight-v2.js:454-468 | `session.execution.started` and every `session.status` but `idle` do the same with active |
| `PluginEvents.ToolMeaning` | plugins/opencode/agentlight-v2.js:292-308 | So does a tool call |
| `PluginEvents.IdleMeaning` | plugins/opencode/agentlight-v2.js:413-420 | Each event that says a session stopped makes a waiting one need help; otherwise it is done if it has a parent, as known or as `session.get` answers, else paused; no other session is reported |
| `PluginEvents.AskMeaning` | plugins/opencode/agentlight-v2.js:480-528 | The five kinds of question make the session they are about, wherever they carry it, need help and wait, and change nothing else |
| `PluginEvents.AnswerMeaning` | plugins/opencode/agentlight-v2.js:485-516 | The four kinds of answer make it active and end the wait, and change nothing else |
| `PluginEvents.WithdrawalMeaning` | plugins/opencode/agentlight-v2.js:500-526 | The three kinds of withdrawal end the wait and the work |
| `PluginEvents.DeletionMeaning` | plugins/opencode/agentlight-v2.js:444-453 | A deleted session is done, waits no more and is reported, whether the event carries its id itself or in its description |
| `PluginEvents.RenameMeaning` | plugins/opencode/agentlight-v2.js:438-443 | A rename with a title sets the name to it, even to none, and nothing else |
| `PluginEvents.DescriptionMeaning` | plugins/opencode/agentlight-v2.js:314-329 | Created and updated sessions get the title that is not blank, the place and the parent their description gives, else what was known, and no status is reported |
| `PluginEvents.OtherKindsIgnored` | plugins/opencode/agentlight-v2.js:528-530 | An event of any other kind changes nothing |
| `PluginEvents.NamelessIgnored` | plugins/opencode/agentlight-v2.js:292-293 | Nor does one that names no session |
| `Plugin.AgentLightPlugin.Report` | plugins/opencode/agentlight-v2.js:292-308 | Reporting records status and time and leaves one pending upsert with that status |
| `Plugin.AgentLightPlugin.Remember` | plugins/opencode/agentlight-v2.js:314-328 | Learning a description changes the plugin's maps as specified |
| `PluginRuns.RememberKeeps` | plugins/opencode/agentlight-v2.js:310-328 | It touches only the session it is about; a name is replaced only by a title that is not blank, a path only by a path, neither is ever lost, and status and time stay |
| `Plugin.AgentLightPlugin.Flush` | plugins/opencode/agentlight-v2.js:261-288 | A timer sends the pending status once, with the parent resolved first |
| `Plugin.AgentLightPlugin.CollectSnapshot` | plugins/opencode/agentlight-v2.js:341-353 | The heartbeat batch is the live sessions in insertion order and then the newest five done |
| `PluginEvents.HeartbeatTells` | plugins/opencode/agentlight-v2.js:246-259 | Every event of a heartbeat carries what is known of its session: status, name, place or else the plugin's directory, time, link, producer and whether it has a parent |
| `PluginEvents.UpsertTells` | plugins/opencode/agentlight-v2.js:261-268 | A timer's upsert tells the same of its session, after its parent has been asked for |
| `PluginEvents.NewestFive` | plugins/opencode/agentlight-v2.js:348-360 | Of the done sessions five are listed, or all if fewer, and none left out was touched later than one listed |
| `Plugin.AgentLightPlugin.SendSnapshot` | plugins/opencode/agentlight-v2.js:355-366 | A heartbeat asks for unknown parents first and is never posted empty |
| `PluginRuns.ReachableInv` | plugins/opencode/agentlight-v2.js:261-531 | In every reachable state pending entries carry their session's current status and a waiting session is red or working |
| `PluginRuns.WaitingNeverLost` | plugins/opencode/agentlight-v2.js:413-531 | While the user is being asked, no run of other events, tool calls, flushes or heartbeats makes the session idle or done |
| `PluginRuns.WaitingColour` | plugins/opencode/agentlight-v2.js:297-531 | During a wait the session is red if and only if the last report on it is not activity, over every run that does not end the wait |
| `PluginRuns.AskedColour` | plugins/opencode/agentlight-v2.js:481-531 | The same from any question on, in every run from a fresh plugin |
| `PluginRuns.ToolHidesQuestion` | plugins/opencode/agentlight-v2.js:603-610 | A tool call after a question leaves the user asked and the session green |
| `PluginRuns.PromptMeaning` | plugins/opencode/agentlight-v2.js:470-531 | Wherever the event carries its session: a question turns it red and starts a wait, an answer turns it green and ends it, a withdrawn question ends the wait and leaves a subagent done and a main session paused; each leaves an upsert pending |
| `PluginRuns.IdleWhileWaiting` | plugins/opencode/agentlight-v2.js:413-420 | Any idle event during a wait keeps the session red and waiting; otherwise it is done if it is a subagent and paused if not |
| `PluginRuns.QuiescentHubIsCurrent` | plugins/opencode/agentlight-v2.js:261-308 | When nothing is pending, the last status sent for each reported session, by a timer's upsert or a heartbeat, is its current one |
| `PluginRuns.HeartbeatContents` | plugins/opencode/agentlight-v2.js:341-353 | A heartbeat lists every session that is not done and exactly the newest five that are, none twice, no dropped one newer than a listed one |
| `Resync.Resynchronisation` | plugins/opencode/agentlight-v2.js:341-366 | After any history of lost and delivered messages, foreign traffic, removals, clears, restarts and failed writes, one delivered heartbeat leaves the hub with exactly the plugin's listed ids minus the tombstoned, each with its current status |
| `Resync.HeartbeatResyncs` | crates/agentlight-source-events/src/source.rs:159-214 | The same from an arbitrary hub state, reachable or not |
| `Resync.HeartbeatSignalExact` | crates/agentlight-source-events/src/source.rs:159-222 | A heartbeat lists no session twice, so it signals a change if and only if it changed a session |
| `Resync.SnapshotIdempotent` | crates/agentlight-source-events/src/source.rs:159-222 | Delivering a snapshot twice leaves what delivering it once left |
| `StableSort.StableSortUnique` | crates/agentlight-core/src/session.rs:88-98 | The stable sort used throughout is the only sorted arrangement that keeps equivalent rows in their order |
| `EngineModel.OrderIrrelevant` | crates/agentlight-core/src/state.rs:255-281 | Counts and light depend only on which sessions there are, not on their order |
| `EngineModel.RetentionKeepsNewest` | crates/agentlight-core/src/engine.rs:523-557 | On sorted rows retention keeps a prefix: all live rows, at most five done ones, none dropped that is newer than a kept one |
| `Engine.CountModels` | crates/agentlight-core/src/engine.rs:530-542 | The counting loop yields the number of sessions per status |
| `Engine.AggregateStatuses` | crates/agentlight-core/src/state.rs:255-281 | The one-pass light is red, orange, green or gray as the existence of statuses prescribes |
| `Engine.ApplyRetention` | crates/agentlight-core/src/engine.rs:544-557 | The in-place retention keeps what the specification keeps, in order |
| `Engine.Edge` | crates/agentlight-core/src/engine.rs:404-434 | The edge pass fires for exactly the sessions whose status newly meets a trigger and remembers the last status seen |
| `Engine.Engine.RenderSnapshot` | crates/agentlight-core/src/engine.rs:320-399 | The engine's render is the specified snapshot of the merged sources |
| `Rendered.RowsInOrder` | crates/agentlight-core/src/engine.rs:523-528 | In every rendered list needs-help rows stand before active, active before paused and those before done ones, and of one status no later row is newer, rows without a time last |
| `Rendered.RowsExactly` | crates/agentlight-core/src/engine.rs:363-386 | Every row shows, field by field, a session that is not hidden; left out are only done ones, if not all are wanted, and none later than a done one shown |
| `Rendered.RowsMatchCounts` | crates/agentlight-core/src/engine.rs:544-557 | There are as many live rows of each status as the counts say, and of done rows all or at most five |
| `Rendered.CountsExactly` | crates/agentlight-core/src/engine.rs:530-542 | Each count is the number of sessions of that status that are not hidden |
| `Rendered.LightFromCounts` | crates/agentlight-core/src/state.rs:255-281 | The rendered light follows from the rendered counts and yellow mode, each colour if and only if its rule holds |
| `Rendered.RedExactly` | crates/agentlight-core/src/engine.rs:470-472 | The light is red if and only if some session of some source needs help, hidden subagents included |
| `Rendered.StatusLine` | crates/agentlight-core/src/engine.rs:323-350 | A snapshot is ok if and only if there is a source and all are ready; otherwise its error names the first that is not, or what is configured |
| `Rendered.SourceLine` | crates/agentlight-core/src/engine.rs:352-361 | Kind and label are those of the first source, or of the configured one |
| `Engine.Engine.Publish` | crates/agentlight-core/src/engine.rs:301-318 | A publish bumps the revision by one and carries the snapshot, notifications and alarms of the same source reads |
| `Engine.Engine.DispatchRemove` | crates/agentlight-core/src/engine.rs:218-230 | A removal reaches only the source that owns the key |
| `ClearModel.FirstOwner` | crates/agentlight-core/src/engine.rs:218-230 | It reaches the first source with the key's id and no other, and fails if there is none |
| `ClearModel.RemovalOutcome` | crates/agentlight-core/src/engine.rs:218-230 | What one removal does to a push store and to a file, and exactly when it succeeds |
| `Engine.Engine.ClearDone` | crates/agentlight-core/src/engine.rs:232-271 | Clearing acts and reports as specified for bulk and per-session sources |
| `StateFile.ReapStaleInPlace` | crates/agentlight-core/src/state.rs:219-230 | The loop over the map downgrades exactly the stale sessions |
| `StateFile.ClawlightFileSource.Snapshot` | crates/agentlight-core/src/source/clawlight.rs:102-123 | Reading the file yields the reaped sessions in some order of the map, or the matching health |
| `FileRows.EntriesShown` | crates/agentlight-core/src/state.rs:118-190 | Exactly the entries whose status is one of the four texts show, once each, with that status, or done if it is a day old, and with the entry's name, place, harness and time |
| `FileRows.FileRed` | crates/agentlight-core/src/state.rs:118-230 | A desktop over the file is red if and only if some entry says `needs_help` and is not a day old |
| `FileRows.FileHealth` | crates/agentlight-core/src/source/clawlight.rs:102-123 | The source is ready, missing or unreadable for the file's reason exactly as the file is a document, absent or broken |
| `StateFile.ClawlightFileSource.ClearSession` | crates/agentlight-core/src/state.rs:368-385 | Clearing drops one entry and nothing else of the document, or fails without writing |
| `Legacy.CountInOrder` | crates/agentlight-core/src/snapshot.rs:49-62 | The legacy count loop yields the number of sessions per status |
| `Legacy.LoadSessionsInPlace` | crates/agentlight-core/src/session.rs:75-131 | Sorting and retaining in place yields the specified rows |
| `Legacy.BuildSnapshotAt` | crates/agentlight-core/src/snapshot.rs:64-113 | The builder that fills one mutable snapshot yields the specified one |
| `Legacy.SortedRowsAgree` | crates/agentlight-core/src/session.rs:75-131 | Sorting sessions then displaying them equals displaying then sorting rows, ties included |
| `Legacy.EngineRefinesLegacy` | crates/agentlight-core/src/snapshot.rs:64-113 | For every file content, config, clock and map order, the engine over one file source renders exactly the legacy snapshot |
| `Relay.LiftUndoesDisplay` | crates/agentlight-hub-client/src/source.rs:197-211 | Re-normalizing a served row gives back the session up to its source and link |
| `Relay.DisplayUndoesLift` | crates/agentlight-hub-client/src/source.rs:197-211 | And displaying a re-normalized row gives back the row as served, link included |
| `Relay.RemoteShowsSameLive` | crates/agentlight-hub-client/src/source.rs:327-332 | A desktop behind a hub shows the same light, live counts and live rows in order as one reading the source directly, for every pair of configs |
| `Relay.RemoteShowsSameAll` | crates/agentlight-core/src/engine.rs:363-376 | If the hub shows every done session, the desktop's whole rendering is the same |
| `RelayDone.RemoteShowsSameDone` | crates/agentlight-core/src/engine.rs:544-557 | For every pair of configs the desktop's rows are those read directly if and only if the hub keeps all done sessions, or drops only ones the desktop hides, or passes on five the desktop shows and wants no more |
| `RelayDone.RemoteDoneCount` | crates/agentlight-core/src/engine.rs:544-557 | For every pair of configs the desktop's counts are right if and only if the hub keeps all done sessions or drops only ones the desktop hides |
| `Relay.RemoteHealth` | crates/agentlight-hub-client/src/source.rs:181-195 | The relay recovers the health the hub rendered from, with the hub's text for the reason |
| `Relay.HealthAnswered` | crates/agentlight-hub-client/src/source.rs:181-195 | For any answer of a hub: ready if and only if it says so, missing if and only if it is neither ready nor present, else unreadable in the hub's words |
| `Notify.Accounting` | crates/agentlight-core/src/engine.rs:404-434 | Over any run of publishes, notifications minus falling edges of a key is one while it needs help and zero otherwise |
| `Notify.EdgesExactly` | crates/agentlight-core/src/engine.rs:481-521 | A publish announces exactly the sessions whose status made one of the configured transitions since the last one, in words that name the new status, critical if they need help |
| `Notify.RecallLast` | crates/agentlight-core/src/engine.rs:421-434 | Of rows with one key the status of the last is remembered |
| `Notify.StreamIgnoresSubagents` | crates/agentlight-core/src/engine.rs:470-497 | For triggers within needs-help and done the whole stream ignores `show_subagents` if and only if no finished subagent is promoted to a main session |
| `Notify.PromotionDiffers` | crates/agentlight-core/src/engine.rs:470-497 | A concrete run with such a promotion on which the streams differ |
| `ClearModel.Routing` | crates/agentlight-core/src/engine.rs:232-271 | Clearing key by key leaves every source with exactly its own done sessions removed |
| `ClearDone.ClearFileExact` | crates/agentlight-core/src/engine.rs:232-271 | On a writable state file, clearing deletes precisely the ids done or stale at the sampled clock, keeps everything else in the document and reports their number |
| `ClearDone.ClearFileThenRender` | crates/agentlight-core/src/state.rs:219-230 | Reading the file again at that clock shows no done row |
| `ClearDone.ClearFileBlocked` | crates/agentlight-core/src/state.rs:368-385 | Behind a byte order mark or a read-only file nothing changes and the clear is an error exactly when there was something to clear |
| `ClearDone.BulkCountExact` | crates/agentlight-core/src/engine.rs:246-262 | The bulk count reported is the number removed if and only if no stored session is stale |
| `ClearDone.BulkMatchesRemovals` | crates/agentlight-source-events/src/source.rs:238-261 | One bulk clear and a removal per done row end in the same sessions and owners, and in the same tombstone set if none is evicted, if and only if no stored session is stale |
| `ClearDone.StaleSessionSurvivesBulk` | crates/agentlight-core/src/engine.rs:246-262 | After any one event for a session that is not done, a day later the bulk command reports the session as cleared and leaves it |
| `Pipeline.RemoteRed` | crates/agentlight-core/src/engine.rs:320-399 | On any desktop behind any hub over a push store the light is red if and only if some stored session needs help and is not stale |
| `Pipeline.NeedsHelpReachesTheLight` | plugins/opencode/agentlight-v2.js:341-366 | End to end: after any history, once a heartbeat arrives and the hub reads back the time it prints for the session, every remote desktop is red while a session the user did not remove has had the status needs_help at the plugin for less than a day |
| `Pipeline.QuestionReachesTheLight` | plugins/opencode/agentlight-v2.js:341-366 | The same from an open question on, while no activity was reported since the last question, idle event or error |
| `Pipeline.FileRelayed` | crates/agentlight-hub-client/src/source.rs:327-332 | A desktop behind a hub over any state file shows the light, live counts and live rows of one reading the file |
| `Wav.FindSamples` | crates/agentlight-core/src/wav.rs:25-60 | The chunk walk terminates within bounds on every byte string and finds the specified format and data range |
| `WavFiles.SamplesOfFile` | crates/agentlight-core/src/wav.rs:25-55 | For any chunks with bodies of any length before the data chunk, odd ones padded, the samples are the body of that chunk, cut off at the end of the file, if and only if the last complete format chunk says PCM of sixteen bits |
| `WavFiles.NoDataNoSamples` | crates/agentlight-core/src/wav.rs:33-55 | A file without a data chunk has none |
| `WavFiles.NotWaveNoSamples` | crates/agentlight-core/src/wav.rs:24-27 | Nor has one that does not start as a RIFF file of type WAVE |
| `Wav.ScaleWav` | crates/agentlight-core/src/wav.rs:15-68 | The scaler's new buffer is the specified one for every input and volume |
| `Wav.SampleScaled` | crates/agentlight-core/src/wav.rs:57-63 | A scaled sample keeps its sign, never grows, is within one of the exact product, and the clamp never bites |
| `Wav.RoundHalf` | crates/agentlight-core/src/wav.rs:57-63 | Halves are rounded away from zero |
| `Wav.SampleMonotone` | crates/agentlight-core/src/wav.rs:57-63 | A louder volume, up to and past one hundred, never gives a smaller magnitude |
| `Wav.ScalingKeepsLayout` | crates/agentlight-core/src/wav.rs:15-68 | Length and every byte outside whole samples of the data chunk are kept, its odd last byte included, and the output parses to the same format and range |
| `Wav.ScalingSamples` | crates/agentlight-core/src/wav.rs:15-68 | At every volume every whole sample read back from the output is the scaled input sample, with its sign, no larger, and within one of the exact product |
| `WavFiles.SilentAtZero` | crates/agentlight-core/src/wav.rs:15-68 | At volume zero every whole sample of such a file is silent |
| `Wav.WalkReadsPrefix` | crates/agentlight-core/src/wav.rs:33-54 | What the walk finds depends only on the bytes before the data |
| `Sse.ReadFrames` | crates/agentlight-hub-client/src/sse.rs:19-75 | The read loop, stopped after any number of turns, delivers the frames of the lines it read |
| `Sse.FrameRoundTrip` | crates/agentlight-hub-client/src/sse.rs:33-75 | A printed frame is delivered unchanged if and only if its name and data lines do not end in CR and its data does not start with LF |
| `Sse.PrintRead` | crates/agentlight-hub-client/src/sse.rs:33-75 | The same over the printed text, for names that are one line |
| `Sse.LeadingLfDropped` | crates/agentlight-hub-client/src/sse.rs:66-71 | Without CRs the one loss is the payload's leading line feeds |
| `Sse.CommentsIgnored` | crates/agentlight-hub-client/src/sse.rs:53-55 | Any stream reads like the stream without its comment lines |
| `Sse.QuietBlockIgnored` | crates/agentlight-hub-client/src/sse.rs:43-51 | A block of comments and blank lines inserted in any stream where no frame is open changes nothing |
| `Sse.StreamDelivered` | crates/agentlight-hub-client/src/sse.rs:33-75 | With comments anywhere and keep-alive blocks between frames the frames sent are delivered in order |
| `SseCuts.CutDeliversPrefix` | crates/agentlight-hub-client/src/sse.rs:33-75 | Every cut of the stream delivers a prefix of its frames if and only if each line with content that starts with CR inside an open frame finds the frame complete |
| `SseCuts.FramesOnlyGrow` | crates/agentlight-hub-client/src/sse.rs:33-75 | What a cut delivers is a prefix of what every later cut does if and only if no line with content starts with CR while a frame is open |
| `SseCuts.CutCanMislead` | crates/agentlight-hub-client/src/sse.rs:43-51 | After any text that leaves a frame open, a line of CR and any content, cut after its CR, delivers a frame the whole line does not |
| `SseCuts.StoppedEarly` | crates/agentlight-hub-client/src/sse.rs:29-32 | Stopping the reader delivers a prefix |
| `Base64Url.EncodeInOrder` | crates/agentlight-core/src/session.rs:218-236 | The chunk loop builds the specified encoding |
| `Base64Url.DecodeEncode` | crates/agentlight-core/src/session.rs:218-236 | Decoding gives back every byte string |
| `Base64Url.EncodeDecode` | crates/agentlight-core/src/session.rs:218-236 | A text decodes to a byte string if and only if it is that string's encoding |
| `Base64Url.EncodedShape` | crates/agentlight-core/src/session.rs:217-220 | The length is four thirds rounded up, without padding, all symbols URL-safe |
| `Query.PercentDecode` | crates/agentlight-server/src/auth.rs:104-129 | The decoding loop yields the specified bytes |
| `Query.EncodeComponent` | crates/agentlight-server/src/routes.rs:285-301 | The encoding loop yields the specified bytes |
| `Query.EncodedByte` | crates/agentlight-server/src/routes.rs:285-301 | A letter, digit or one of `-_.~` is encoded as itself, every other byte as `%` and two upper-case digits |
| `Query.DecodedEscape` | crates/agentlight-server/src/auth.rs:104-129 | Two hexadecimal digits of either case after `%` are one byte |
| `Query.DecodedOther` | crates/agentlight-server/src/auth.rs:104-129 | Any other `%` stays, `+` is a blank, every other byte is itself |
| `Query.TokenFromQuery` | crates/agentlight-server/src/auth.rs:90-100 | The search loop returns the first `token` pair's decoded value, or nothing |
| `Query.TokenText` | crates/agentlight-server/src/auth.rs:90-100 | The key searched for is `token`, pairs end at `&` and keys at `=` |
| `Query.DecodeEncoded` | crates/agentlight-server/src/routes.rs:285-301 | Percent-decoding undoes the encoding on every byte string |
| `Query.EncodedBytes` | crates/agentlight-server/src/routes.rs:285-301 | The encoding holds unreserved bytes and `%` only |
| `Query.TokenRoundTrip` | crates/agentlight-server/src/auth.rs:90-129 | An encoded token is found in any query whose earlier keys differ |
| `Query.RawTokenKept` | crates/agentlight-server/src/auth.rs:104-129 | Any unencoded token survives if and only if it holds no `+`, no escape and no `&` |
| `Query.BareTokenEndsSearch` | crates/agentlight-server/src/auth.rs:93-98 | A `token` key without a value ends the search with nothing |
| `Window.HomeAreaIsBest` | src-tauri/src/lib.rs:667-693 | The chosen work area is the fallback or a monitor no other overlaps more |
| `Window.HomeAreaExactly` | src-tauri/src/lib.rs:667-693 | It is the monitor overlapped most, if that is one, else the only one of those under the window's corner, else the fallback |
| `Window.HomeOnDesktop` | src-tauri/src/lib.rs:712-729 | The fallback is the primary monitor, else the first; without monitors the window is at home where it is |
| `Window.EdgesStop` | src-tauri/src/lib.rs:770-781 | Edges past the 32-bit coordinates stop at the last one |
| `Window.AsI32Wraps` | src-tauri/src/lib.rs:770-781 | A size is taken as the signed number it equals modulo two to the 32 |
| `Window.HomeIsWhereItLies` | src-tauri/src/lib.rs:667-701 | A window wholly inside one monitor of a desktop without overlaps is at home there |
| `Window.ClampIsNearest` | src-tauri/src/lib.rs:703-710 | The placement is inside the area if and only if the window fits, and then no inside placement is nearer |
| `Window.ClampKeeps` | src-tauri/src/lib.rs:703-710 | A fitting window stays put if and only if it was already inside |
| `Window.WindowShell.ResizeWindow` | src-tauri/src/lib.rs:574-662 | Each command moves position, size, mode, anchor, home and last applied position as specified |
| `Window.ViewPlaced` | src-tauri/src/lib.rs:621-661 | A change to an expanded view has the target's size and mode and puts the window wholly inside the work area it belongs to if and only if it fits there, no place inside being nearer, staying put if and only if it was inside |
| `Window.ViewRemembers` | src-tauri/src/lib.rs:621-661 | Expanding from the collapsed view remembers its place and home, and a move is remembered as the program's own |
| `Window.ViewUnplaced` | src-tauri/src/lib.rs:649-660 | A window that cannot be read or has no work area is only resized |
| `Window.CollapsePlaced` | src-tauri/src/lib.rs:587-618 | Collapsing puts the window the same way, from its anchor if it is where the program last put it, else from where it is |
| `Window.CollapseUnseen` | src-tauri/src/lib.rs:600-604 | A window that cannot be read only becomes collapsed by name |
| `Window.ReturnsToAnchor` | src-tauri/src/lib.rs:583-661 | After any commands without a drag, among them collapses to sizes that fit, collapsing lands where the collapsed window would be placed had it never expanded |
| `Window.ReturnsHome` | src-tauri/src/lib.rs:583-661 | On any desktop whose work area the window fits it comes back to the exact same place if and only if it lies wholly inside that area there |
| `Window.ReturnsToMonitor` | src-tauri/src/lib.rs:583-661 | In particular from inside one monitor of a desktop without overlaps |
| `Window.DragOutcome` | src-tauri/src/lib.rs:590-600 | A drag while expanded decides the collapse if and only if no later view change moved the window |

## Left out

- Threads, locks and the network: stream and poll loops, server life cycle, broadcast channels, retries. Methods and events are atomic steps, so races between them (a removal during an upsert, a revision taken after its snapshot, an update lost while a stream connects) are not modelled.
- Asynchronous interleaving inside the plugin: a flush or heartbeat runs to its end before the next event.
- The V1 plugin, hub autostart, heartbeat scheduling, startup and dispose of the plugin.
- The session URL an upsert falls back to at the hub, unknown ingest modes, and building a row's link: the link rule is the parameter `config.link`, the plugin's URL rule the parameter `sessionUrl`.
- JSON and RFC 3339 text: documents are maps of entries with the unparsed rest kept, times go through the `Library` parameters.
- PushStore.EventPushSource.Snapshot: without the source's fixed capability flags and its revision, which the engine ignores in a snapshot.
- Engine.Engine.ClearDone: over the state file and the push store; the hub client, the other source with a bulk command, forwards it to the hub and is not among the modelled sources.
- The hub client's cache, polling and change signature.
- The state file's own bulk clear (`state::clear_done`), which the engine does not use, its lock and its temporary files: a write succeeds whole or not at all.
- Listening, pairing, token hashing, configuration fields, diagnostics, tray, menus, icons, alarm sound generation, HTML and CSS.
- Integer widths outside the WAV scaler and the window: revisions, counts and buffer sizes do not wrap.
- Plugin.AgentLightPlugin.CollectSnapshot: compares recorded times as instants, where the plugin compares their ISO texts with `localeCompare`; the two agree on the one format it prints.
- Wav.SampleScaled: assumes of single-precision arithmetic only that rounding is monotone, exact on 16-bit integers and within half a unit in the last place, as IEEE 754 promises; exact bits are not modelled.
- Query.PercentDecode: stops before the lossy conversion from bytes to text, which is the identity on a token that is valid UTF-8.
- Sse.ReadFrames: reads decoded characters; a stream that is not UTF-8 ends the program's reader at that line. The stop flag is the number of turns allowed.
- Window.ReturnsToAnchor: needs the position and size to be readable when the collapsed window expands and the position when it collapses; when the system cannot tell them, the program leaves the window alone. A resize or move the system refuses is not modelled.
- Window.ClampIsNearest: for rectangles whose edges are 32-bit coordinates, as the program's types intend; beyond them edges saturate in the model as in the program.
- Base64Url.EncodeInOrder: the shifts and masks of the 24-bit word are the equivalent divisions and remainders.
