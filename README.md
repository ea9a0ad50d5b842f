# DEFQON.1 recorder — a Dafny model of its supervision core

The recorder watches a list of Mixlr channels and records each one while it is live. Every recording is a `yt-dlp` child process writing an `.mp3` file. The repository holds two versions, and this project models the core of both.

**The class-based version (`src/`):**

- `ApiManager` turns one HTTP response from the Mixlr `channel_view` endpoint into an info record:
  - `live`, `url`, `name`, `listenerCount`, or `error`.
- `StreamManager` keeps one child process per channel. It offers:
  - `start`, `isActive`, `handleReconnect`;
  - `stop`, which removes the old listeners, wires a close listener that resolves the stop, sends SIGINT, and arms a 5-second SIGKILL failsafe;
  - `stopAll`.
- `App` reconciles these two classes:
  - it loads the channel list and drops channels no longer listed, stopping their recordings;
  - each poll either starts a recording for a live channel or stops one for a channel that is not live;
  - it tracks a status per channel from the manager's `stream:started`, `stream:stopped` and `stream:error` events;
  - it shuts down by clearing its timers and stopping everything.

**The single-file version (`simple_version/index.js`):**

- It keeps a map from "stage" (the channel's username) to the running process.
- Stalled recordings are killed when the file has not grown for 60 s.
- A channel that is no longer live has its stage's process killed.
- Every process is interrupted at shutdown, and the program exits once they have all closed.

## How the model is built

Each stateful class becomes a Dafny `class` whose fields are the source's fields; process handles and listeners become explicit data. Each class also has a pure state record and a step function per operation:

| state record | step functions |
|---|---|
| `Streams.Supervisor` | `StartStep`, `StopStep`, `CloseStep`, `ErrorStep`, `FailsafeStep`, `StopAllStep` |
| `Reconciler.AppState` | `LoadStep`, `PollChannelStep`, `PollPass`, `ShutdownStep` |
| `SimpleRecorder.Simple` | `RecordStep`, `CloseStep`, `ErrorStep`, `Sweep`, `ChannelStep`, `CheckPass`, `ShutdownStep` |

Every operation method proves `State() == Step(old(State()), …)`; the helpers that carry one loop, one iteration or the timer set-up (`ArmTimers`, `RemoveStale`, `DropEach`, `DropIfStale`, `AddNewIds`, `StopEachKey`, `SweepEntries`, `ExamineEntry`, `CheckNext`) state their own two-state contracts. The properties the source promises are then proved as lemmas about the step functions. Loops in the source stay loops: `stopAll`, the stale-channel removal, the poll loop, the stall sweep, the channel check and the shutdown loop, each with its invariants.

### World inputs

The outside world enters as parameters:

- the fetch outcome (`ApiManager.FetchOutcome`);
- the outcome of reading and parsing the streams file (`Reconciler.LoadOutcome`);
- whether `exec` threw (`Streams.SpawnOutcome`);
- the clock (`now`) and `new Date().toISOString()` (`iso`);
- the results of `stat` on each recording file (`SimpleRecorder.Check`);
- the one fetch per channel (`SimpleRecorder.ChannelObs`).

Process callbacks are methods addressed by a process handle:

- `OnClose`, `OnError`, `OnFailsafe`;
- `App.ProcessClosed`, `App.ProcessError`, `App.FailsafeTimer`.

A stale listener of an earlier process therefore acts on its channel key exactly as the source's closures do. Each `stop()` promise is a ticket number, and the `resolved` set records which promises have settled.

### Behaviour kept as written

- **Always-true guard.** The guard `state.status !== 'recording'` (`src/App.js:147`) runs just after the status was set to `'live'`, so it always holds. Whether a live poll starts a recording depends only on `isActive` (`Reconciler.LiveStartsExactlyWhenInactive`).
- **An API error stops the recording.** A failed request yields `live: false`, so an active recording is stopped before the status is set to `error` (`Reconciler.ApiErrorStopsRecording`).
- **A second `stop()` orphans the first.** Calling `stop()` again on the same channel replaces the close listener that would have resolved the first promise, so the first ticket never resolves.
- **Late close in the simple version.** A late `close` event deletes the map entry by stage, even when a newer process holds that stage now (`SimpleRecorder.LateCloseDropsNewerEntry`).
- **A recording with no stage outlives its stream.** A recording started without a username is stored under `undefined`. The offline check looks up the channel's name, so it never kills that recording (`SimpleRecorder.UnnamedRecordingOutlivesStream`).

## Model

Predicates that only name a condition of the source (`Streams.StreamManager.IsActive` for `isActive`, src/StreamManager.js:19-21; `Reconciler.HasError` for `info.error`, src/App.js:160) have no row of their own: they appear in the rows of the members whose contracts use them.

| member | source | states |
|---|---|---|
| Js.Get | src/ApiManager.js:20-21 | an optional lookup yields `Some` of the value exactly when it reads an object holding the key; on any other value, `undefined` and `null` included, it is `undefined` |
| Js.Path | src/ApiManager.js:20-21 | a chain of optional lookups: the empty chain is the value itself, a longer chain is the first lookup followed by the rest, and a chain from a nullish value is `undefined` |
| Js.TruthyString | src/ApiManager.js:29-30 | a string result exactly when the value is a truthy (non-empty) string, and then it is that string |
| Js.StringOr | src/ApiManager.js:21 | `v \|\| fallback`: the string when it is truthy, otherwise the fallback |
| Js.Find | src/ApiManager.js:25-27 | `Array.prototype.find` with a callback reading `item.type`: the found item is a member accepted by the callback, and the only exception is the TypeError for a `null` item |
| Js.FindSpec | src/ApiManager.js:25-27 | `find` returns `undefined` iff no item accepts and none is null, returns `x` iff `x` is the first decisive item, and throws iff the first decisive item is `null` |
| Js.DashOut | src/StreamManager.js:35 | `replace(/[:.]/g, '-')`: same length, each listed character becomes `-`, every other character is kept |
| Js.NatToString | src/ApiManager.js:13 | the decimal text of a status code: non-empty, digits only, no leading zero |
| Js.NatToStringRoundTrip | src/ApiManager.js:13 | reading the decimal text back gives the number |
| ApiManager.RequestUrl | src/ApiManager.js:7 | the request url is `BASE_URL` followed by the channel id, with nothing in between |
| ApiManager.ListenerCountOf | src/ApiManager.js:31 | `listener_count \|\| 0`: the broadcast's numeric `listener_count` when it has one, and 0 when it is absent or not a number |
| ApiManager.IncludedFind | src/ApiManager.js:25-27 | `data.included?.find(cb)`: `undefined` when `included` is missing or `null`; the not-a-function TypeError exactly when it is present but not an array; otherwise only the null-item TypeError; a found item is a live broadcast of the array |
| ApiManager.GetStreamInfo | src/ApiManager.js:6-57 | the info record keeps the channel id; live iff a url is present (and then the url is non-empty and a count is present); never live with an error; a non-ok status gives the status message and a thrown fetch gives its message, both not live and named by the id; a successful body is named by its username or the id |
| ApiManager.LiveExactly | src/ApiManager.js:20-41 | `live: true` iff `data.attributes.live` is truthy, `included` is an array, the first item that stops `find` is a live broadcast, and it has a stream url; url and count are that broadcast's |
| ApiManager.BodyErrorExactly | src/ApiManager.js:20-55 | a parsed body yields an error iff the channel is live and `find` throws, and the error is one of the two TypeErrors |
| Streams.SafeName | src/StreamManager.js:36 | `replace(/[^a-zA-Z0-9_-]/g, '')`: every character of the result is an ASCII letter, digit, `_` or `-`, and it is no longer than the name |
| Streams.SafeNameKeepsSafeChars | src/StreamManager.js:36 | every letter, digit, `_` and `-` of the name occurs in the safe name as often as in the name |
| Streams.SafeNameIdentity | src/StreamManager.js:36 | a name is unchanged iff it already consists of safe characters only |
| Streams.SafeNameAppend | src/StreamManager.js:36 | the name is filtered character by character in order: the safe name of a concatenation is the concatenation of the safe names |
| Streams.SafeNameIdempotent | src/StreamManager.js:36 | making a name safe twice gives the same as once |
| Streams.Stamp | src/StreamManager.js:35 | the timestamp keeps its length, contains no `:` or `.`, and keeps every other character |
| Streams.DirPrefix | src/StreamManager.js:37 | the output directory followed by at most one added separator, ending in `/`; an empty directory adds nothing |
| Streams.OutFile | src/StreamManager.js:35-37 | the output path is the directory prefix, then the safe name, and ends in `.mp3` (the stamp after the `-` is located by StampRecoverable) |
| Streams.StampRecoverable | src/StreamManager.js:35-37 | the stamp can be read back from the file name, after the safe name and a `-` |
| Streams.OutFileDistinct | src/StreamManager.js:35-37 | two different stamps give two different output files for one channel |
| Streams.InitialInv | src/StreamManager.js:7-17 | a new manager has no processes and satisfies the invariant |
| Streams.InvOneProcessPerChannel | src/StreamManager.js:45 | two channels never share one process |
| Streams.ReconnectStep | src/StreamManager.js:106-117 | the channel's process entry is deleted, a `stream:error` with the reason and the connection-lost log are emitted, and nothing else changes |
| Streams.StartStep | src/StreamManager.js:23-63 | an active channel only logs "already running"; otherwise a spawned process is stored under the channel with its yt-dlp arguments, a reconnect close listener and an error listener, and `stream:started` is emitted, while an `exec` that throws emits the start error and reconnects; pending reconnect timeouts of the channel are cleared |
| Streams.StopStep | src/StreamManager.js:65-104 | with no process the promise resolves at once; otherwise the listeners are replaced by one that resolves this stop's promise, SIGINT is sent and a SIGKILL failsafe is armed; the entry stays until the process closes |
| Streams.CloseStep | src/StreamManager.js:52-87 | the close of an open process deletes its channel entry; a reconnect listener logs the exit, emits `stream:error` and reconnects, and a stop listener logs success, emits `stream:stopped` and resolves that stop's promise; a repeated or unknown close changes nothing |
| Streams.ErrorStep | src/StreamManager.js:57-59 | a process error reconnects with the start-failed message while the error listener is wired, and is ignored after `stop` removed it |
| Streams.FailsafeStep | src/StreamManager.js:93-98 | a due failsafe is consumed and sends SIGKILL only if its channel still has a process entry |
| Streams.StopAllStep | src/StreamManager.js:119-124 | `stopAll` stops each listed channel once, issuing one promise per channel, and keeps the process entries |
| Streams.StopThenClose | src/StreamManager.js:76-87 | after `stop`, the close of that process emits `stream:stopped` and resolves the promise, with no `stream:error`, and a later process error is ignored |
| Streams.StartIdempotent | src/StreamManager.js:25-28 | a second `start` of an active channel logs and changes no process |
| Streams.KeyList | src/StreamManager.js:121 | `Object.keys`: lists each key of the map exactly once |
| Streams.StopEachWires | src/StreamManager.js:121 | after stopping a key list, the i-th channel's close listener resolves the i-th promise, and processes not listed are untouched |
| Streams.StopAllWiresAll | src/StreamManager.js:119-122 | after `stopAll` every open process is being stopped and resolves its own promise |
| Streams.CloseStoppingEntries | src/StreamManager.js:82-87 | closing processes that are being stopped deletes exactly their entries and resolves exactly their promises |
| Streams.StopAllThenCloseAll | src/StreamManager.js:119-124 | once every process stopped by `stopAll` has closed, no process entry is left |
| Streams.StopAllThenResolved | src/StreamManager.js:119-124 | once every process stopped by `stopAll` has closed, every promise it issued has resolved |
| Streams.StreamManager.constructor | src/StreamManager.js:7-17 | a new manager with the configured output directory and arguments and no processes |
| Streams.StreamManager.HandleReconnect | src/StreamManager.js:106-117 | the new state is `ReconnectStep` of the old one |
| Streams.StreamManager.Start | src/StreamManager.js:23-63 | the new state is `StartStep` of the old one |
| Streams.StreamManager.Stop | src/StreamManager.js:65-104 | returns the next promise ticket and the new state is `StopStep` of the old one |
| Streams.StreamManager.OnClose | src/StreamManager.js:52-87 | the new state is `CloseStep` of the old one |
| Streams.StreamManager.OnError | src/StreamManager.js:57-59 | the new state is `ErrorStep` of the old one |
| Streams.StreamManager.OnFailsafe | src/StreamManager.js:93-98 | the new state is `FailsafeStep` of the old one |
| Streams.StreamManager.StopAll | src/StreamManager.js:119-124 | the loop stops each key of the process map once, in some order, the new state is `StopAllStep` of that order, and the tickets returned are consecutive |
| Streams.StreamManager.StopEachKey | src/StreamManager.js:121-122 | the loop's state after stopping a key list is `StopEach` of that list, with one consecutive ticket per key |
| Reconciler.OnEvent | src/App.js:65-88 | `stream:started` sets recording and the start time, `stream:stopped` sets offline, `stream:error` sets error; other channels, names and counts are untouched, and so are events for unknown channels |
| Reconciler.Deliver | src/App.js:65-88 | delivering a list of events keeps the channels, names and counts, and leaves every channel named by none of the events as it was |
| Reconciler.DeliverStatus | src/App.js:65-88 | a channel's status after delivery is the status replay of the events that name it |
| Reconciler.Stale | src/App.js:103-104 | the channels to remove are exactly the known channels not in the new list |
| Reconciler.StaleDistinct | src/App.js:103-107 | no stale channel is listed twice, so each is stopped once |
| Reconciler.Without | src/App.js:106 | removing a list of channels keeps exactly the other entries, unchanged |
| Reconciler.WithoutStaleIsRetained | src/App.js:103-108 | removing the stale channels leaves exactly the states of the listed channels |
| Reconciler.LoadStep | src/App.js:93-122 | a failed load changes nothing; a parsed list becomes the channel list, the states are exactly the listed channels (old ones kept, new ones fresh), and each stale channel is stopped |
| Reconciler.LoadStopsStale | src/App.js:103-108 | the stale channels are exactly the unlisted known ones, each stopped once, with one promise each |
| Reconciler.LiveBranch | src/App.js:144-150 | the live branch changes only the polled channel's state |
| Reconciler.OfflineBranch | src/App.js:151-158 | the offline branch changes only the polled channel's state |
| Reconciler.PollChannelStep | src/App.js:138-163 | one poll of a channel sets its name from the info, sets error whenever the info has an error, keeps the channel list, timers, exit and other channels |
| Reconciler.PollPass | src/App.js:135-166 | a poll pass keeps the channel list and the set of tracked channels |
| Reconciler.LiveStartsExactlyWhenInactive | src/App.js:144-150 | a live poll starts a recording exactly when the manager has no process for the channel (the status guard is always true); otherwise the status is live and the manager is untouched; the count is the listener count or 0 |
| Reconciler.StartEmits | src/StreamManager.js:41-62 | `start` of an inactive channel emits the starting log and `stream:started`, or the start error and the reconnect when `exec` throws |
| Reconciler.StartTouchesOnly | src/App.js:65-88 | the events of a `start` change no other channel's state |
| Reconciler.StopTouchesOnly | src/App.js:73-80 | the events of a `stop` change no other channel's state |
| Reconciler.StopEmits | src/StreamManager.js:72-74 | `stop` of an active channel emits only its log |
| Reconciler.StartDelivered | src/App.js:65-88 | a started process leaves the channel recording since now; an `exec` that throws leaves it in error |
| Reconciler.LiveStartRecords | src/App.js:144-150 | a live poll of an inactive channel whose process spawns leaves the channel recording since now with a process entry |
| Reconciler.LiveStartFails | src/App.js:144-150 | a live poll whose `exec` throws leaves the channel in error with no process entry |
| Reconciler.LiveStartDelivers | src/App.js:144-150 | the live poll of an inactive channel is: set name, live and count, start, then deliver the emitted events |
| Reconciler.DeliverStartTime | src/App.js:65-69 | `stream:started` after a log sets the start time to now |
| Reconciler.OfflineStopsExactlyWhenActive | src/App.js:151-163 | a poll that is not live stops the recording exactly when the channel is active, sets the count to 0, and leaves the status error when the info has an error and offline otherwise |
| Reconciler.ApiErrorStopsRecording | src/App.js:151-162 | when the request fails, an active recording gets SIGINT and the channel ends in error, named by its id |
| Reconciler.ShutdownStep | src/App.js:174-236 | both timers are cleared, the manager takes `stopAll` over an enumeration of its processes, the exit status is the given code (1 when stopping throws), and the channel states and process entries are kept |
| Reconciler.ShutdownStopsAll | src/App.js:191-202 | after shutdown every process is being stopped, and once they have all closed no process entry is left and every promise `stopAll` awaited has resolved |
| Reconciler.App.constructor | src/App.js:9-20 | a new app with no channels, no timers and a fresh manager with the configuration |
| Reconciler.App.ArmTimers | src/App.js:34-41 | records both interval ids and nothing else |
| Reconciler.App.LoadChannelIds | src/App.js:93-122 | the new state is `LoadStep` of the old one, for an enumeration of the old channels |
| Reconciler.App.RemoveStale | src/App.js:103-108 | the states become those of the listed channels and the manager has stopped each stale channel |
| Reconciler.App.DropEach | src/App.js:103-108 | the loop removes and stops exactly the stale channels of its key list |
| Reconciler.App.DropIfStale | src/App.js:104-107 | an unlisted channel is stopped and its state deleted; a listed one is untouched |
| Reconciler.App.AddNewIds | src/App.js:111-115 | new channels get a fresh offline state and known ones keep theirs |
| Reconciler.App.PollStreams | src/App.js:135-166 | the loop over the channel list gives `PollPass` of the old state |
| Reconciler.App.PollChannel | src/App.js:138-163 | one iteration gives `PollChannelStep` of the old state |
| Reconciler.App.ProcessClosed | src/App.js:73-88 | the manager takes the close step and the app delivers the events it emitted |
| Reconciler.App.ProcessError | src/App.js:82-88 | the manager takes the error step and the app delivers the events it emitted |
| Reconciler.App.FailsafeTimer | src/StreamManager.js:93-98 | the manager takes the failsafe step and the app is otherwise unchanged |
| Reconciler.App.Shutdown | src/App.js:174-236 | the new state is `ShutdownStep` of the old one, with one consecutive promise per stopped channel |
| SimpleRecorder.FindLiveBroadcast | simple_version/index.js:86-99 | no current broadcast or no `included` gives `null`; the only exceptions are the TypeErrors of `find` and of reading `attributes` |
| SimpleRecorder.FindLiveBroadcastSound | simple_version/index.js:86-99 | a found broadcast is an `included` item with the current broadcast id, truthy `live` and this stream url, and its stage is the username |
| SimpleRecorder.FindLiveBroadcastComplete | simple_version/index.js:86-99 | when the first item with the current id is live with a url, that broadcast is returned |
| SimpleRecorder.InitialInv | simple_version/index.js:59-61 | the start state has no processes, is not shutting down and satisfies the invariant |
| SimpleRecorder.IsoPart | simple_version/index.js:104 | the timestamp keeps its length, has no `/` or `:`, and keeps every other character |
| SimpleRecorder.FileName | simple_version/index.js:104 | the file name is the stage, `_`, the cleaned timestamp (`IsoPart`) and `.mp3`, segment by segment |
| SimpleRecorder.OutputPath | simple_version/index.js:105 | `path.join(RECORDINGS_DIR, fileName)`: the directory, one `/`, then the file name, segment by segment |
| SimpleRecorder.RecordStep | simple_version/index.js:101-129 | a running stage is left alone; otherwise a process is spawned with the stream url and output path and stored under the stage with size 0 and the current time |
| SimpleRecorder.RecordIdempotent | simple_version/index.js:102 | recording a stage twice is the same as once |
| SimpleRecorder.CloseStep | simple_version/index.js:120-123 | the close of an open process deletes its stage's entry and settles a pending shutdown wait |
| SimpleRecorder.ErrorStep | simple_version/index.js:125-128 | a process error deletes its stage's entry and nothing else |
| SimpleRecorder.LateCloseDropsNewerEntry | simple_version/index.js:120-123 | the late close of a replaced process deletes the entry of the newer, still open process |
| SimpleRecorder.VerdictOf | simple_version/index.js:135-142 | the recording grew iff the file is larger than last seen; it is stalled iff it did not grow and more than 60 s passed since the last growth |
| SimpleRecorder.Sweep | simple_version/index.js:131-147 | the sweep keeps the invariant |
| SimpleRecorder.SweepStallRule | simple_version/index.js:131-147 | each stage is killed with SIGKILL and deleted when stalled, refreshed when it grew, and untouched otherwise |
| SimpleRecorder.SweepSparesOthers | simple_version/index.js:131-147 | the sweep signals no process outside the map and adds no stage |
| SimpleRecorder.NoGrowthKeepsDeadline | simple_version/index.js:135-142 | no growth keeps the entry unchanged until 60 s have passed, and deletes it exactly after |
| SimpleRecorder.StopStage | simple_version/index.js:158-162 | SIGTERM and deletion keep the invariant |
| SimpleRecorder.StageName | simple_version/index.js:153 | `username \|\| channel`: the username when it is a non-empty string, the channel otherwise |
| SimpleRecorder.ChannelStep | simple_version/index.js:151-164 | a falsy response changes nothing; the check throws exactly when `findLiveBroadcast` throws; a live broadcast is `recordStream` of its stage and url; an offline answer whose stage name is not running changes nothing |
| SimpleRecorder.LiveAnswerRecords | simple_version/index.js:155-157 | after a live answer its stage is running, a stage already running is left as it was, and no running stage is dropped |
| SimpleRecorder.CheckPass | simple_version/index.js:149-165 | the pass over the channels keeps the invariant |
| SimpleRecorder.UnnamedRecordingOutlivesStream | simple_version/index.js:153-161 | a recording stored under `undefined` is not killed by an offline check |
| SimpleRecorder.OfflineStopsNamedStage | simple_version/index.js:158-161 | an offline channel whose name is running gets SIGTERM and its entry is deleted; every other entry and process, the handle counter, the shutdown flags, `awaiting` and `exitCode` are unchanged |
| SimpleRecorder.ShutdownStep | simple_version/index.js:181-199 | a second shutdown does nothing; the first clears the intervals, sends SIGINT to every running process and waits for each, and exits at once iff nothing runs |
| SimpleRecorder.ShutdownIdempotent | simple_version/index.js:182 | shutting down twice is the same as once |
| SimpleRecorder.ShutdownInterruptsAll | simple_version/index.js:188-193 | every running process receives SIGINT and is waited for |
| SimpleRecorder.CloseAll | simple_version/index.js:190-196 | the closes settle exactly the waits of their processes |
| SimpleRecorder.ShutdownExitsWhenAllClosed | simple_version/index.js:190-198 | after shutdown the program exits iff every process that was running has closed |
| SimpleRecorder.CheckPassStops | simple_version/index.js:149-165 | a TypeError in one channel ends the pass |
| SimpleRecorder.SweepOrderIsSweep | simple_version/index.js:132 | sweeping the entries in any order gives the same state |
| SimpleRecorder.Recorder.constructor | simple_version/index.js:59-61 | the start state |
| SimpleRecorder.Recorder.RecordStream | simple_version/index.js:101-129 | the new state is `RecordStep` of the old one |
| SimpleRecorder.Recorder.OnClose | simple_version/index.js:120-123 | the new state is `CloseStep` of the old one |
| SimpleRecorder.Recorder.OnError | simple_version/index.js:125-128 | the new state is `ErrorStep` of the old one |
| SimpleRecorder.Recorder.MonitorStalledRecordings | simple_version/index.js:131-147 | the new state is `Sweep` of the old one |
| SimpleRecorder.Recorder.CheckChannels | simple_version/index.js:149-165 | the loop gives `CheckPass` of the old state and reports the TypeError that ended it |
| SimpleRecorder.Recorder.CheckChannel | simple_version/index.js:151-164 | one channel's check gives `ChannelStep`, and a throw leaves the state unchanged |
| SimpleRecorder.Recorder.CheckNext | simple_version/index.js:150-164 | one turn of the channel loop extends `CheckPass` by the next channel, or ends the whole pass with the TypeError it threw |
| SimpleRecorder.Recorder.GracefulShutdown | simple_version/index.js:181-199 | the new state is `ShutdownStep` of the old one |
| SimpleRecorder.SweepEntries | simple_version/index.js:132-146 | the loop over the map examines each stage once, in some order |
| SimpleRecorder.ExamineEntry | simple_version/index.js:134-142 | one stage's examination is `Examine` |

## Left out

- I/O is not modelled: `fetch`, `fs`, `child_process`, timers and the console are inputs or recorded events, not effects. This covers yt-dlp's output, the `ytDlpEvent` and stderr logs, `mkdir`, and wall-clock time.
- The 10-second `Promise.race` in `App.shutdown`, the 1-second delay and timer ordering are left out: the stop promises are tickets, and when they resolve is decided by the order in which `OnClose` is called.
- Interleaving across `await` is left out. A poll, load, check or close is one atomic step, so overlapping polls and a load that lands in the middle of a poll are not modelled.
- Iteration order of `Object.keys` and `Map` is left open: the loops pick keys in some order, and a ghost `order` names it.
- `reconnectTimeouts` is never armed in the source. It is kept as a set that `start` and `stop` clear.
- Node's crash on an unhandled `'error'` event is not modelled, nor are unhandled promise rejections. This includes a `checkChannels` TypeError thrown from a timer: the model ends that pass and reports the message.
- Reconciler.LoadStep: only a streams file that parses to an array of strings is modelled (`Parsed`); `LoadFailed` stands for a read or parse error. A file that parses to a JSON string is not modelled: `includes` is then a substring test, so the first `forEach` stops and deletes every tracked channel whose id is not a substring, and `newChannelIds.forEach` then throws, so `channelIds` keeps the old list while `streamStates` has shrunk. Arrays with non-string elements and other JSON values are not modelled either.
- Streams.StreamManager.IsActive: `processes` and `streamStates` are plain objects, so an id naming an `Object.prototype` member (`constructor`, `toString`, …) reads as present from the start. In the app, `loadChannelIds` then makes no fresh state for it (src/App.js:112), and the poll assigns `state.name` on the inherited member (src/App.js:142); for a function-valued member that throws in strict-mode class code and rejects the poll, and since `isActive` is true the source never calls `start`, which would only log "already running". The model's tables are maps that hold only what was stored, so for such an id it makes a fresh state, polls normally and spawns a process.
- UI rendering and the final render in shutdown are left out, as are `UIManager`, `index.js`, `utils.js`, the chokidar watch, `formatBytes`, `updateTuiTable` and `main`.
- `fetchStreamInfo` in the simple version is folded into the per-channel observation.
- ApiManager.GetStreamInfo: a truthy username, stream url or `listener_count` that is not a string (or, for the count, a number) is treated as absent, while JavaScript would pass it on.
- SimpleRecorder.FindLiveBroadcast: a username that is not a string is treated as `undefined`, while JavaScript would use it as a distinct map key. A truthy `progressive_stream_url` that is not a string is read as no broadcast, while the source returns it and calls `recordStream`; the model then takes the offline branch and stops a running stage of that name.
- SimpleRecorder.StageName: a truthy username that is not a string is replaced by the channel name, while `username || channel` in JavaScript returns it as it is. With a numeric username, say, the source records under that number and its offline lookup finds and kills the recording; the model records under `undefined` (see the line above) and its offline lookup uses the channel's name, so the recording outlives its stream.
- Streams.DirPrefix: `path.join` normalisation (`..`, `.` and repeated separators inside the directory) is left out. A directory already ending in `/` is kept as it is, any other non-empty one gets one `/` added, and an empty one adds nothing.
- SimpleRecorder.OutputPath: `path.join` normalisation of a stage that contains `/` or `..` is left out.
- Reconciler.App.Shutdown: only a throw from stopping is modelled (`stopThrows`, exit code 1). A throw reaching the outer `catch` (src/App.js:214-216), which also sets exit code 1, and a throw inside the final-render `try` (src/App.js:206-212), which leaves the exit code alone, are not modelled. The log printed after `stopAll` settles and the process exit itself are not emitted; only the exit status is recorded.
- The close code and the console messages only appear as log events. No property is proved about their text beyond which event is emitted.
- Streams.StopAllStep: the log "All stream processes have been stopped." that `stopAll` emits once all stop promises have settled is not emitted as a `Log` event, because it happens after the awaited closes, which are separate steps here.
- Streams.FailsafeStep: only the earliest armed failsafe can fire. That matches `setTimeout` order only when successive `now` values never decrease, which the model does not require.
- Js.Json: numbers are integers, so fractional values (a fractional `listener_count`, say) are not modelled.
