# now-playing: a Dafny model of the widget's logic

now-playing is a small always-on-top desktop widget. It shows the title, artists, album and artwork of
the active media player. Its Previous, Play/Pause and Next buttons send transport commands back to
that player. Most of the program builds the druid widget tree. This model covers the logic underneath:

- `Metadata` (`metadata.dfy`): the display snapshot `Info` and the player's query results. `Snapshot`
  and the method `GetMetadata` build the snapshot, with every default and every abort of the source.
  `Discover` and the retry loop `GetPlayer` find the active player.
- `Config` (`config.dfy`): converts the configuration record to a corner and an offset. `GetConfig` is
  the load pipeline, in which any failing step except a non-UTF-8 path gives no configuration; that
  one aborts.
- `Ui` (`ui.dfy`): corner placement of the window and the enabled state and labels of the buttons. The
  class `DynImage` rebuilds the artwork box in place. `MinimizeClicked` is the minimize toggle and acts
  on a `Window` object.
- `Tracker` (`tracker.dfy`): the entry point. It covers the corner flags, the initial UI state and the
  background thread. The thread's behaviour is a log of actions (publish a snapshot, or play, pause,
  next, previous). The specification is the functions `TickStep` (one poll), `Track` (the inner loop
  over one player's ticks) and `Run` (the outer discovery loop). The methods `PollOnce`, `TrackPlayer`
  and `RunTracker` are the imperative loops, each proved equal to its function.
- `Wrappers` (`wrappers.dfy`): `Option` and `Result`.

Foreign calls are parameters:
- The D-Bus player becomes `Player`, one observation of its query results, each `None` when the query failed.
- The HTTP fetch and the image decoder are the functions in `Env`.
- The home directory, the file read and the YAML parser are the fields of `System`.
- The display rectangle is a `Rect` argument.

Each `unwrap`/`expect` of the background thread and of `get_config` that can abort becomes a `Panic`
value. These are the metadata query, the artwork send, the body read, the D-Bus connection,
`track_progress` and the non-UTF-8 configuration path.

Infinite loops run over finite inputs:
- Discovery runs over the `find_active` results seen so far.
- Tracking runs over a sequence of ticks.
- The thread runs over a sequence of discovery sessions.

The endings `Discovering` and `Tracking` mean the input ran out while the program was still looping.
Each tick carries the commands the UI sent while that poll waited. The command channel outlives a
session, so commands still queued when a player quits go to the next player.

Points of the code the model reproduces as written:
- A failed artwork send or body read ends the thread through `unwrap` (src/metadata.rs:39, 41); there
  is no fallback image for them. A failed metadata query does the same (src/metadata.rs:30).
- The snapshot stores each capability negated (src/metadata.rs:52-54), and each button is disabled on
  that stored flag (src/ui.rs:78, 85, 87-89). The two negations cancel, so a button is enabled
  exactly when the player reports the capability (`Ui.ButtonsFollowCapabilities`).
- `src/main.rs` calls `get_metadata` with two arguments, but `src/metadata.rs` takes a third,
  `offset`. The model follows `src/metadata.rs`, and the thread takes the offset as part of `Setup`.
- The initial `Info` in `src/main.rs` has no `offset`, so `InitialInfo` takes one as a parameter.
- `src/config.rs` is never declared as a module of the program. `GetConfig` is modelled on its own
  and feeds nothing.

## Model

| member | source | states |
|---|---|---|
| Metadata.Same | src/metadata.rs:6-23 | change detection is equality of all fields except `minimize`, `location`, `offset`: `a` is the same as `b` iff it equals `b` once given `b`'s values of those three |
| Metadata.SameIgnoresPlacement | src/metadata.rs:17-22 | changing `minimize`, `location` or `offset` never makes data look changed |
| Metadata.ConcatAppend | src/metadata.rs:31-34 | joining artist names distributes over concatenating the lists (in-order join) |
| Metadata.Concat | src/metadata.rs:31-34 | no separator is inserted: the joined length is the sum of the name lengths |
| Metadata.ConcatPair | src/metadata.rs:31-34 | ["A", "B"] joins to "AB" |
| Metadata.ArtBuffer | src/metadata.rs:36-45 | an empty URL gives the default image; for a non-empty URL it fails with SendFailed iff the request cannot be sent and with BodyUnreadable iff a successful response's body cannot be read, and with nothing else; a non-default image is the decoding of a successful response's body |
| Metadata.Snapshot | src/metadata.rs:29-60 | a built snapshot always has art, is not minimized and carries the given corner and offset; the only failures are the metadata query, the send and the body read |
| Metadata.GetMetadata | src/metadata.rs:29-60 | the imperative builder (artist loop, buffer overwrite, early aborts) returns exactly `Snapshot` |
| Metadata.SnapshotFailures | src/metadata.rs:30-45 | the build aborts only on missing metadata, a send failure, or an unreadable body of a successful response; an empty URL or unsuccessful response never aborts; for a successful response it succeeds iff the body is readable |
| Metadata.SnapshotText | src/metadata.rs:31-58 | missing title, album, URL and artists become ""; present ones are copied; `minimize` is false; `location` and `offset` are the arguments |
| Metadata.SnapshotFlags | src/metadata.rs:52-55 | each `can_*` is true iff its query did not return `Ok(true)`; `is_paused` iff the status query returned Paused |
| Metadata.SnapshotArt | src/metadata.rs:36-51 | art is always `Some`; the default image for an empty URL, an unsuccessful response or undecodable bytes, otherwise the decoded image |
| Metadata.Discover | src/metadata.rs:62-71 | unreachable bus is fatal; otherwise the result is the first successful `find_active`, every earlier attempt having failed, or still searching iff all failed |
| Metadata.GetPlayer | src/metadata.rs:62-71 | the retry loop returns exactly what `Discover` specifies |
| Config.ConvertToConfig | src/config.rs:19-31 | the corner is a top corner iff `top` and a left corner iff `left`; the offset is `(right_pad, top_pad)` unchanged |
| Config.ConvertTable | src/config.rs:20-29 | (T,T) TopLeft, (T,F) TopRight, (F,T) BottomLeft, (F,F) BottomRight |
| Config.ConvertInjective | src/config.rs:20-29 | two records give the same corner iff they agree on `top` and `left` |
| Config.GetConfig | src/config.rs:39-59 | no configuration if the home directory is unknown, the file unreadable or the YAML malformed; a non-UTF-8 directory aborts, and that is the only error; when the directory is UTF-8, the file reads and the YAML parses, the converted record |
| Ui.PlaceWidget | src/ui.rs:195-203 | the window's gap to each anchored display edge equals the matching offset component |
| Ui.PlacedInside | src/ui.rs:195-203 | a window that fits in the display with its non-negative offset lies inside the display for every corner |
| Ui.PlaceBottomRightExample | src/ui.rs:201 | 460x160 at BottomRight: (x1-460, y1-160) with no offset, (x1-470, y1-180) with offset (10, 20) |
| Ui.PauseLabel | src/ui.rs:79-85 | the label is "Play" iff `is_paused`, else "Pause" |
| Ui.Disabled | src/ui.rs:77-89 | Previous, Play/Pause and Next are each disabled exactly when the data's `can_prev`, `can_pause`, `can_next` flag is set |
| Ui.ButtonsFollowCapabilities | src/ui.rs:77-89 | on a built snapshot each button is enabled iff the player reports that capability as true; the label is "Play" iff the player reports Paused |
| Ui.BuildWidget | src/ui.rs:146-155 | a bordered box showing the data's picture iff the data has art, an empty box otherwise |
| Ui.NeedsRebuild | src/ui.rs:170 | the rebuild test holds iff the artwork URL changed: its `!same` half adds nothing |
| Ui.DynImage.constructor | src/ui.rs:135-139 | a new artwork box holds the unbuilt empty box |
| Ui.DynImage.RebuildInner | src/ui.rs:141-143 | the inner sub-tree becomes the one built from the data |
| Ui.DynImage.Lifecycle | src/ui.rs:162-167 | the sub-tree is rebuilt on WidgetAdded and kept on other events |
| Ui.DynImage.Update | src/ui.rs:169-174 | the sub-tree is rebuilt, and children reported changed, iff the URL differs |
| Ui.ToggleGeometry | src/ui.rs:98-104 | minimizing gives size 20x40 placed with the data's offset; restoring gives 460x160 placed with no offset |
| Ui.MinimizeClicked | src/ui.rs:97-107 | the click flips `minimize`, sets the window to `ToggleGeometry`, and leaves the window size matching the new flag |
| Ui.ToggleTwice | src/ui.rs:97-107 | consecutive clicks pick different sizes, and the second restores the size of the original flag; from full size, two clicks give the full window at its offset-free place |
| Ui.RestoredInside | src/ui.rs:102-103 | the restored window lies inside any display of at least 460x160 |
| Tracker.CornerFromArgs | src/main.rs:24-33 | the highest-priority flag present wins (bottom-right, bottom-left, top-right, top-left); with none, BottomRight |
| Tracker.InitialInfo | src/main.rs:88-100 | before any snapshot the texts are empty, all three buttons disabled, the label "Pause", the artwork box empty, the window not minimized |
| Tracker.LaunchPlacedInside | src/main.rs:43-44 | the window opens at its corner with no offset, inside a display of at least 460x160 |
| Tracker.Dispatch | src/main.rs:72-82 | Pause resumes iff the status query returned Paused and pauses otherwise (a query error included); Next and Prev issue their own call |
| Tracker.DispatchServes | src/main.rs:72-82 | each command is served by exactly one transport call and publishes nothing |
| Tracker.TickStep | src/main.rs:60-82 | a quit leaves first and consumes nothing; a change publishes exactly one fresh snapshot, before any dispatch; otherwise nothing is published; the oldest queued command, if any, is dispatched as the last action, and none iff the queue is empty |
| Tracker.PollOnce | src/main.rs:60-82 | one imperative pass of the inner loop equals `TickStep` |
| Tracker.Track | src/main.rs:59-83 | the inner loop never ends in discovery; it consumes every tick unless a quit or abort stops it, and counts the stopping tick |
| Tracker.TrackConservesCommands | src/main.rs:59-83 | served commands followed by still-queued ones equal the initial queue followed by all commands sent during the handled ticks (FIFO, none lost) |
| Tracker.TrackStopsAtFirstQuit | src/main.rs:59-83 | the inner loop stops exactly at the first quitting or failing tick, and otherwise runs through all ticks |
| Tracker.TrackPublishesOncePerChange | src/main.rs:64-67 | the number of publishes equals the number of changed ticks before the stop |
| Tracker.QuitConsumesNothing | src/main.rs:60-63 | a quitting tick ends the loop with no action and every command still queued |
| Tracker.TrackPlayer | src/main.rs:59-83 | the imperative inner loop returns exactly the log, queue and ending of `Track` |
| Tracker.Run | src/main.rs:50-85 | a quit always returns to discovery; the thread stops only by an abort or when the input runs out |
| Tracker.RunConservesCommands | src/main.rs:50-85 | over the whole thread, across player changes, served commands followed by still-queued ones equal the initial queue followed by all commands sent during every session's handled ticks (the channel outlives a player) |
| Tracker.RunUntracked | src/main.rs:50-58 | a session that aborts or finds no player before its inner loop serves no command and leaves the queue as it was |
| Tracker.RunTracked | src/main.rs:52-58 | a session that reaches its inner loop publishes its snapshot first, then continues with the loop's outcome |
| Tracker.NextSessionOpensWithPublish | src/main.rs:51-62 | after a player quits, the thread continues with the next session from the carried-over queue, and the next player's snapshot is published right after the quitting player's actions |
| Tracker.SessionOpensWithPublish | src/main.rs:52-57 | a discovered player whose snapshot succeeds first gets that snapshot published |
| Tracker.RunTracker | src/main.rs:50-85 | the nested discovery and tick loops produce exactly the log, queue and ending of `Run` |
| Tracker.Install | src/main.rs:55-57 | the idle callback as written: the UI data becomes exactly the published snapshot, `minimize` included |
| Tracker.InstallForgetsMinimize | src/main.rs:66 | installing a snapshot while minimized clears `minimize` while the window stays 20x40, so the next click shrinks again |
| Tracker.InstallKeepingMinimize | src/metadata.rs:17-19 | the corrected install shows the snapshot's data and keeps the UI's own `minimize` |
| Tracker.InstallKeepsToggleWorking | src/ui.rs:97-107 | with the corrected install, the window size still matches the flag and the next click changes it |
| Tracker.DisplayedUntouched | src/main.rs:55-57 | a log without publishes leaves the UI data unchanged, whatever the callback |
| Tracker.DisplayedSplit | src/main.rs:55-57 | whatever the callback, the UI ends with the last published snapshot installed over the data shown just before it |
| Tracker.DisplayedAsWrittenIsLastPublish | src/main.rs:55-57 | with the callbacks as written (lines 55-57 and 66), the UI shows exactly the last published snapshot, `minimize` included |
| Tracker.DisplayedKeepsMinimize | src/metadata.rs:17-19 | with the corrected callback the UI's `minimize` survives any number of publishes |
| Tracker.DisplayedIsLastPublish | src/metadata.rs:17-19 | with the corrected callback, last write wins: the UI shows the last published snapshot with its own `minimize` |

## Findings

| source | as written | input that shows it | evidently intended | confidence | as-written member | corrected member |
|---|---|---|---|---|---|---|
| src/main.rs:66 | `*data = information` replaces the UI data wholesale, and every snapshot has `minimize: false` | click minimize, then a tick reports a change: the window is 20x40 but `minimize` is false, so the next click sets 20x40 again instead of restoring | `minimize` is UI state (ignored by change detection) and should survive a publish | medium, not executed | Tracker.InstallForgetsMinimize | Tracker.InstallKeepingMinimize |

## Left out

- Druid widget construction is not modelled. This covers fonts, the Flex/ZStack layout, the SVG icons,
  the close button, and the `event`/`layout`/`paint`/`id` delegation of `DynImage`. None of it holds
  logic beyond the rules above.
- The `unwrap` of `launcher.launch(...)` (src/main.rs:100) is not modelled: it is the UI event loop's
  own failure, outside the background thread.
- `Screen::get_display_rect` is not modelled; the display rectangle is a parameter.
- Threads, the `mpsc` channel and `add_idle_callback` are not modelled.
  - The channel is a sequence, and commands the buttons send arrive with the tick during which they were sent.
    Commands sent while no tick is running (during discovery or the 1 s settle sleep) count among the
    arrivals of the next session's first tick, which queues its arrivals before anything else.
  - Publishing appends to the log.
  - Cross-thread delivery order and races are not modelled.
- Time is not modelled: the 1 s settle sleep, the 500 ms tick interval and the 5 ms receive timeout.
  An empty queue stands for a timeout.
- The HTTP fetch and the image decoder are fixed for the whole run of the thread (`Setup.env`), so the
  model cannot express a URL whose response changes between two refreshes.
- The player's state can change between two queries inside one tick. The model uses one observation per tick.
- The mpris/D-Bus library, the HTTP client and the image decoder are abstract parameters. So are
  `BaseDirs`, file reading and YAML parsing. The warning printed for a broken configuration file is left out.
- The infinite loops run over finite inputs, as described above.
- `Arc` sharing of the artwork is not modelled. `Metadata.Same` compares the art by value, whereas
  druid compares `Arc`s by address. Rebuild decisions do not depend on this (`Ui.NeedsRebuild`).
- Coordinates and pads are `real`, not `f64`. Only addition and subtraction are used.
- Transport call results are not modelled: errors are swallowed (`unwrap_or_default`), so the log
  records only which call was made.
